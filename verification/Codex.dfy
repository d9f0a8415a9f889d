/** The normalizer of `codex exec --json`: one outcome for every record, one sequence for every event. */
module Codex {
  import opened Options
  import opened Text
  import opened Ndjson
  import opened Translation

  // ---- what the schemas make of a decoded record ------------------------------------

  datatype Item = Item(id: string, kind: string, text: Option<string>, exitCode: Option<int>)

  datatype ErrorValue = Plain(text: string) | Wrapped(message: Option<string>)

  datatype Failure = Failure(message: Option<string>, error: Option<ErrorValue>)

  /** `None` wherever the schema in question refuses the record. */
  datatype ProviderRecord = ProviderRecord(kind: Option<string>, item: Option<Item>, failure: Option<Failure>)

  datatype Payload =
    | Log(level: string, message: string)
    | Tool(phase: string, callId: string, tool: string, exitCode: Option<int>)

  datatype Event = Event(sequence: nat, payload: Payload)

  datatype Outcome = Emits(payload: Payload) | Ignored | Rejected

  const TOOL_ITEM_NAMES: map<string, string> := map[
    "command_execution" := "shell", "file_change" := "file_change",
    "mcp_tool_call" := "mcp", "web_search" := "web_search"
  ]

  function Translate(redact: string -> string, v: ProviderRecord): Outcome {
    match v.kind
    case None => Rejected
    case Some(kind) =>
      if kind in {"thread.started", "turn.started", "turn.completed"} then Ignored
      else if kind == "item.started" || kind == "item.completed" then
        (match v.item case None => Rejected case Some(item) => TranslateItem(redact, kind, item))
      else if kind == "error" || kind == "turn.failed" then
        (match v.failure case None => Rejected case Some(f) => Emits(Log("error", redact(FailureText(f)))))
      else Ignored
  }

  function TranslateItem(redact: string -> string, kind: string, item: Item): Outcome {
    if item.kind == "reasoning" || item.kind == "plan_update" then Ignored
    else if item.kind == "agent_message" then
      if kind == "item.started" then Ignored
      else (match item.text case None => Rejected case Some(text) => Emits(Log("info", redact(text))))
    else if item.kind !in TOOL_ITEM_NAMES then Ignored
    else Emits(Tool(if kind == "item.started" then "started" else "completed", item.id, TOOL_ITEM_NAMES[item.kind],
                    if kind == "item.completed" then item.exitCode else None))
  }

  function FailureText(f: Failure): string {
    match (f.message, f.error)
    case (Some(m), _) => m
    case (None, Some(Plain(text))) => text
    case (None, Some(Wrapped(Some(m)))) => m
    case _ => "Codex reported an error"
  }

  function EffectOf(redact: string -> string, next: nat, v: ProviderRecord): Effect<nat, Event> {
    match Translate(redact, v)
    case Emits(payload) => Effect(next + 1, [Event(next, payload)], 0, 0)
    case Ignored => Effect(next, [], 1, 0)
    case Rejected => Effect(next, [], 0, 1)
  }

  function Effects(redact: string -> string): Translator<ProviderRecord, nat, Event> {
    (next: nat, v: ProviderRecord) => EffectOf(redact, next, v)
  }

  // ---- the normalizer ------------------------------------------------------------------

  datatype Batch = Batch(events: seq<Event>, rejected: nat, ignored: nat, offset: nat, pendingBytes: nat)

  class CodexEventNormalizer {
    const stream: NdjsonStream<ProviderRecord>
    const redact: string -> string
    var nextSequence: nat

    constructor (codec: Codec<ProviderRecord>, redact: string -> string, startSequence: nat)
      ensures fresh(stream) && stream.codec == codec && this.redact == redact
      ensures Between() == Start(startSequence)
    {
      this.redact := redact;
      nextSequence := startSequence;
      stream := new NdjsonStream(codec);
    }

    /** The normalizer between two chunks, with nothing left to report. */
    function Between(): Session<nat, Event>
      reads this, stream
    {
      Session(stream.pending, stream.consumedBytes, Out(nextSequence, [], 0, 0))
    }

    method PushChunk(chunk: string) returns (b: Batch)
      modifies this, stream
      ensures var s := Turn(stream.codec, Effects(redact), old(Between()), chunk);
              && Between() == s.(out := Out(s.out.state, [], 0, 0))
              && b == Batch(s.out.events, s.out.rejected, s.out.ignored, s.consumed, Bytes(s.pending))
    {
      var read := stream.PushChunk(chunk);
      b := Consume(read);
    }

    method FinishStream() returns (b: Batch)
      modifies this, stream
      ensures var s := LastTurn(stream.codec, Effects(redact), old(Between()));
              && Between() == s.(out := Out(s.out.state, [], 0, 0))
              && b == Batch(s.out.events, s.out.rejected, s.out.ignored, s.consumed, Bytes(s.pending))
    {
      var read := stream.FinishStream();
      b := Consume(read);
    }

    method Consume(read: ReadResult<ProviderRecord>) returns (b: Batch)
      modifies `nextSequence
      ensures var o := Steps(Effects(redact), Out(old(nextSequence), [], 0, read.rejected), read.records);
              && nextSequence == o.state
              && b == Batch(o.events, o.rejected, o.ignored, read.consumedBytes, read.pendingBytes)
    {
      var events: seq<Event> := [];
      var rejected: nat, ignored: nat := read.rejected, 0;
      for i := 0 to |read.records|
        invariant Out(nextSequence, events, ignored, rejected)
                  == Steps(Effects(redact), Out(old(nextSequence), [], 0, read.rejected), read.records[..i])
      {
        assert read.records[..i + 1][..i] == read.records[..i];
        hide Translate;
        match Translate(redact, read.records[i].value) {
          case Emits(payload) =>
            events := events + [Event(nextSequence, payload)];
            nextSequence := nextSequence + 1;
          case Ignored => ignored := ignored + 1;
          case Rejected => rejected := rejected + 1;
        }
      }
      assert read.records[..|read.records|] == read.records;
      b := Batch(events, rejected, ignored, read.consumedBytes, read.pendingBytes);
    }
  }

  // ---- what it guarantees ----------------------------------------------------------------

  predicate NumberedFrom(start: nat, events: seq<Event>) {
    forall i :: 0 <= i < |events| ==> events[i].sequence == start + i
  }

  /** Events are numbered without gaps from the start sequence, and every record has one outcome. */
  lemma {:induction false} EveryRecordOnce(redact: string -> string, start: nat, rejected: nat,
                                           records: seq<Record<ProviderRecord>>)
    ensures var o := Steps(Effects(redact), Out(start, [], 0, rejected), records);
            && o.state == start + |o.events|
            && NumberedFrom(start, o.events)
            && |o.events| + o.ignored + o.rejected == |records| + rejected
  {
    if records != [] {
      hide Translate;
      EveryRecordOnce(redact, start, rejected, records[..|records| - 1]);
    }
  }

  // ---- what leaves the normalizer ----------------------------------------------------------

  function LogsOf(events: seq<Event>): seq<Payload> {
    if events == [] then [] else
      var last := events[|events| - 1].payload;
      LogsOf(events[..|events| - 1]) + if last.Log? then [last] else []
  }

  function ToolsOf(events: seq<Event>): seq<Payload> {
    if events == [] then [] else
      var last := events[|events| - 1].payload;
      ToolsOf(events[..|events| - 1]) + if last.Tool? then [last] else []
  }

  /** The words of a failure: its own message, else its error, else the message of that. */
  function Complaint(f: Failure): string {
    if f.message.Some? then f.message.value
    else if f.error.Some? && f.error.value.Plain? then f.error.value.text
    else if f.error.Some? && f.error.value.message.Some? then f.error.value.message.value
    else "Codex reported an error"
  }

  /** The text a record has to tell, and at what level: a message when it is complete, and a failure. */
  function Said(v: ProviderRecord): seq<(string, string)> {
    if v.kind == Some("item.completed") && v.item.Some? && v.item.value.kind == "agent_message"
       && v.item.value.text.Some? then [("info", v.item.value.text.value)]
    else if (v.kind == Some("error") || v.kind == Some("turn.failed")) && v.failure.Some? then
      [("error", Complaint(v.failure.value))]
    else []
  }

  /** The public name of the tool that items of this kind are about, if any. */
  function ToolName(kind: string): Option<string> {
    if kind == "command_execution" then Some("shell")
    else if kind == "mcp_tool_call" then Some("mcp")
    else if kind == "file_change" || kind == "web_search" then Some(kind)
    else None
  }

  /** The tool a record is about, by its id and the name its kind stands for. */
  function Called(v: ProviderRecord): seq<Payload> {
    if v.item.None? || ToolName(v.item.value.kind).None? then []
    else if v.kind == Some("item.started") then
      [Tool("started", v.item.value.id, ToolName(v.item.value.kind).value, None)]
    else if v.kind == Some("item.completed") then
      [Tool("completed", v.item.value.id, ToolName(v.item.value.kind).value, v.item.value.exitCode)]
    else []
  }

  function Redacted(redact: string -> string, said: seq<(string, string)>): seq<Payload> {
    seq(|said|, i requires 0 <= i < |said| => Log(said[i].0, redact(said[i].1)))
  }

  function AllSaid(records: seq<Record<ProviderRecord>>): seq<(string, string)> {
    if records == [] then [] else AllSaid(records[..|records| - 1]) + Said(records[|records| - 1].value)
  }

  function AllCalled(records: seq<Record<ProviderRecord>>): seq<Payload> {
    if records == [] then [] else AllCalled(records[..|records| - 1]) + Called(records[|records| - 1].value)
  }

  lemma OneRecordSays(redact: string -> string, v: ProviderRecord)
    ensures var o := Translate(redact, v);
            && Redacted(redact, Said(v)) == (if o.Emits? && o.payload.Log? then [o.payload] else [])
            && Called(v) == if o.Emits? && o.payload.Tool? then [o.payload] else []
  {
  }

  /**
   * Over any records: the log messages are the redactions of what the records say, one by one and in order,
   * and nothing else of their text is in one. Tool events carry the ids of the provider as they are.
   */
  lemma {:induction false} LogsAreRedacted(redact: string -> string, start: nat, rejected: nat,
                                           records: seq<Record<ProviderRecord>>)
    ensures var events := Steps(Effects(redact), Out(start, [], 0, rejected), records).events;
            && LogsOf(events) == Redacted(redact, AllSaid(records))
            && ToolsOf(events) == AllCalled(records)
  {
    if records != [] {
      hide Translate, Said, Called;
      var init, v := records[..|records| - 1], records[|records| - 1].value;
      LogsAreRedacted(redact, start, rejected, init);
      OneRecordSays(redact, v);
      var o := Steps(Effects(redact), Out(start, [], 0, rejected), init);
      OneEventMore(o.events, EffectOf(redact, o.state, v).events);
      RedactedAppend(redact, AllSaid(init), Said(v));
    }
  }

  lemma OneEventMore(events: seq<Event>, more: seq<Event>)
    requires |more| <= 1
    ensures LogsOf(events + more)
            == LogsOf(events) + if more != [] && more[0].payload.Log? then [more[0].payload] else []
    ensures ToolsOf(events + more)
            == ToolsOf(events) + if more != [] && more[0].payload.Tool? then [more[0].payload] else []
  {
    if more == [] {
      assert events + more == events;
    } else {
      assert (events + more)[..|events|] == events;
    }
  }

  lemma RedactedAppend(redact: string -> string, a: seq<(string, string)>, b: seq<(string, string)>)
    ensures Redacted(redact, a + b) == Redacted(redact, a) + Redacted(redact, b)
  {
  }

  // ---- what it rejects -------------------------------------------------------------------

  predicate IsItemEvent(v: ProviderRecord) { v.kind == Some("item.started") || v.kind == Some("item.completed") }

  predicate IsFailure(v: ProviderRecord) { v.kind == Some("error") || v.kind == Some("turn.failed") }

  /** A schema refuses it: no kind, an item event without item, a failure that is none, a message without text. */
  predicate Malformed(v: ProviderRecord) {
    || v.kind.None?
    || (IsItemEvent(v) && v.item.None?)
    || (IsFailure(v) && v.failure.None?)
    || (v.kind == Some("item.completed") && v.item.Some? && v.item.value.kind == "agent_message"
        && v.item.value.text.None?)
  }

  const REFUSED: ProviderRecord -> nat := (v: ProviderRecord) => if Malformed(v) then 1 else 0

  /** It is well formed and there is nothing in it to report. */
  const SKIPPED: ProviderRecord -> nat :=
    (v: ProviderRecord) => if !Malformed(v) && Said(v) == [] && Called(v) == [] then 1 else 0

  lemma OutcomeIff(redact: string -> string, v: ProviderRecord)
    ensures var o := Translate(redact, v);
            (o.Rejected? <==> Malformed(v)) && (o.Emits? <==> Said(v) != [] || Called(v) != [])
  {
  }

  lemma EffectsCount(redact: string -> string)
    ensures forall next, v :: Effects(redact)(next, v).rejected == REFUSED(v)
    ensures forall next, v :: Effects(redact)(next, v).ignored == SKIPPED(v)
  {
    hide Translate, Malformed, Said, Called;
    forall next, v
      ensures Effects(redact)(next, v).rejected == REFUSED(v) && Effects(redact)(next, v).ignored == SKIPPED(v)
    {
      OutcomeIff(redact, v);
    }
  }

  /**
   * Over any records: rejected are, besides what the framing rejected, exactly those a schema refuses, and
   * ignored exactly the others that tell nothing. So records no schema refuses add no rejection.
   */
  lemma MalformedIsRejected(redact: string -> string, start: nat, rejected: nat, records: seq<Record<ProviderRecord>>)
    ensures var o := Steps(Effects(redact), Out(start, [], 0, rejected), records);
            && o.rejected == rejected + Refusals(REFUSED, records)
            && o.ignored == Refusals(SKIPPED, records)
            && (o.rejected == rejected <==> forall i :: 0 <= i < |records| ==> !Malformed(records[i].value))
  {
    hide Malformed, Said, Called, EffectOf;
    EffectsCount(redact);
    RefusedIsRejected(Effects(redact), REFUSED, Out(start, [], 0, rejected), records);
    SkippedIsIgnored(Effects(redact), SKIPPED, Out(start, [], 0, rejected), records);
    NoneRefusedIff(records);
  }

  lemma {:induction false} NoneRefusedIff(records: seq<Record<ProviderRecord>>)
    ensures Refusals(REFUSED, records) == 0 <==> forall i :: 0 <= i < |records| ==> !Malformed(records[i].value)
  {
    if records != [] {
      hide Malformed;
      NoneRefusedIff(records[..|records| - 1]);
    }
  }

  /** A line that is blank, or fits and parses to a record no schema refuses. */
  predicate FreeOfFault(codec: Codec<ProviderRecord>, line: string) {
    IsBlank(line) || (Bytes(line) <= codec.max && codec.parse(line).Some? && !Malformed(codec.parse(line).value))
  }

  /**
   * Over any cutting of a bounded stream and its end: the rejections are one for each line that does not parse
   * or whose record is malformed, and there is none exactly if every line is free of fault.
   */
  lemma StreamRejectsFaults(codec: Codec<ProviderRecord>, redact: string -> string, start: nat, chunks: seq<string>)
    requires Bounded(codec.max, Concat(chunks))
    ensures var lines := Lines(Concat(chunks)) + [Rest(Concat(chunks))];
            var o := LastTurn(codec, Effects(redact), Turns(codec, Effects(redact), Start(start), chunks)).out;
            && o.rejected == Faults(codec, REFUSED, lines)
            && (o.rejected == 0 <==> forall i :: 0 <= i < |lines| ==> FreeOfFault(codec, lines[i]))
  {
    hide Lines, Rest, Bytes, IsBlank, EffectOf, Turns, LastTurn, Malformed, Bounded, Concat, Said, Called;
    EffectsCount(redact);
    StreamFaults(codec, Effects(redact), REFUSED, start, chunks);
    NoFaultIff(codec, REFUSED, Lines(Concat(chunks)) + [Rest(Concat(chunks))]);
  }

  /**
   * Over any chunks of a bounded stream, and its end: contiguous numbers from the start sequence, as many
   * outcomes as there are non-blank lines, every byte consumed and nothing left.
   */
  lemma StreamIsAccountedFor(codec: Codec<ProviderRecord>, redact: string -> string, start: nat, chunks: seq<string>)
    requires Bounded(codec.max, Concat(chunks))
    ensures var text, s := Concat(chunks), Turns(codec, Effects(redact), Start(start), chunks);
            && NumberedFrom(start, s.out.events)
            && |s.out.events| + s.out.ignored + s.out.rejected == NonBlank(Lines(text))
            && s.consumed == Size(Lines(text)) && s.pending == Rest(text)
    ensures var text := Concat(chunks);
            var s := LastTurn(codec, Effects(redact), Turns(codec, Effects(redact), Start(start), chunks));
            && NumberedFrom(start, s.out.events)
            && |s.out.events| + s.out.ignored + s.out.rejected == NonBlank(Lines(text)) + NonBlank([Rest(text)])
            && s.consumed == Bytes(text) && s.pending == ""
  {
    hide Steps, Effects, AddLines, Turns, Finish, Feed, NonBlank;
    var text := Concat(chunks);
    assert "" + text == text;
    TurnsTranslate(codec, Effects(redact), start, chunks);
    LastTurnTranslates(codec, Effects(redact), start, chunks);
    CutsDoNotMatter(codec, Reader("", Nothing(0)), chunks);
    WholeLife(codec, chunks);
    var t := AddLines(codec, Nothing(0), Lines(text));
    EveryRecordOnce(redact, start, t.rejected, t.records);
    var all := Finish(codec, Feed(codec, Reader("", Nothing(0)), chunks)).tally;
    EveryRecordOnce(redact, start, all.rejected, all.records);
    LinesAreAccountedFor(codec, Nothing(0), Lines(text));
    LinesConsume(codec, Nothing(0), Lines(text));
  }
}
