/** The normalizer of `claude -p --output-format stream-json`, which must remember the names of open tool calls. */
module Claude {
  import opened Options
  import opened Text
  import opened Ndjson
  import opened Translation

  // ---- what the schemas make of a decoded record ------------------------------------

  /** A content block: `None` wherever the schema in question refuses it. */
  datatype Block = Block(kind: Option<string>, text: Option<string>,
                         use: Option<(string, string)>, done: Option<string>)

  datatype Content = Words(text: string) | Blocks(blocks: seq<Block>)

  datatype ProviderRecord = ProviderRecord(kind: Option<string>, message: Option<Content>)

  datatype Payload = Log(level: string, message: string) | Tool(phase: string, callId: string, tool: string)

  datatype Event = Event(sequence: nat, payload: Payload)

  /** The next free sequence number, and the name of every call whose result is still awaited. */
  datatype Memory = Memory(next: nat, pendingTools: map<string, string>)

  function Emit(m: Memory, payload: Payload): Effect<Memory, Event> {
    Effect(m.(next := m.next + 1), [Event(m.next, payload)], 0, 0)
  }

  function NoOp(m: Memory): Effect<Memory, Event> { Effect(m, [], 0, 0) }

  function Ignore(m: Memory): Effect<Memory, Event> { Effect(m, [], 1, 0) }

  function Reject(m: Memory): Effect<Memory, Event> { Effect(m, [], 0, 1) }

  function WordsEffect(redact: string -> string, m: Memory, text: string): Effect<Memory, Event> {
    if text == "" then NoOp(m) else Emit(m, Log("info", redact(text)))
  }

  function BlockEffect(redact: string -> string, m: Memory, b: Block): Effect<Memory, Event> {
    match b.kind
    case None => Reject(m)
    case Some(kind) =>
      if kind == "text" then
        (match b.text case None => Reject(m) case Some(text) => WordsEffect(redact, m, text))
      else if kind == "tool_use" then
        (match b.use case None => Reject(m)
         case Some(u) => Emit(m.(pendingTools := m.pendingTools[u.0 := u.1]), Tool("started", u.0, u.1)))
      else if kind == "tool_result" then
        (match b.done case None => Reject(m)
         case Some(id) =>
           var tool := if id in m.pendingTools then m.pendingTools[id] else "unknown";
           Emit(m.(pendingTools := m.pendingTools - {id}), Tool("completed", id, tool)))
      else Ignore(m)
  }

  /** The translations of the blocks, combined in order. */
  function BlocksEffect(redact: string -> string, m: Memory, blocks: seq<Block>): Effect<Memory, Event> {
    if blocks == [] then NoOp(m)
    else
      var before := BlocksEffect(redact, m, blocks[..|blocks| - 1]);
      var last := BlockEffect(redact, before.state, blocks[|blocks| - 1]);
      Effect(last.state, before.events + last.events, before.ignored + last.ignored, before.rejected + last.rejected)
  }

  function EffectOf(redact: string -> string, m: Memory, v: ProviderRecord): Effect<Memory, Event> {
    match v.kind
    case None => Reject(m)
    case Some(kind) =>
      if kind != "assistant" && kind != "user" then Ignore(m)
      else match v.message
           case None => Reject(m)
           case Some(Words(text)) => WordsEffect(redact, m, text)
           case Some(Blocks(blocks)) => BlocksEffect(redact, m, blocks)
  }

  function Effects(redact: string -> string): Translator<ProviderRecord, Memory, Event> {
    (m: Memory, v: ProviderRecord) => EffectOf(redact, m, v)
  }

  // ---- the normalizer ------------------------------------------------------------------

  datatype Batch = Batch(events: seq<Event>, rejected: nat, ignored: nat, offset: nat, pendingBytes: nat)

  class ClaudeEventNormalizer {
    const stream: NdjsonStream<ProviderRecord>
    const redact: string -> string
    var pendingTools: map<string, string>
    var nextSequence: nat

    constructor (codec: Codec<ProviderRecord>, redact: string -> string, startSequence: nat)
      ensures fresh(stream) && stream.codec == codec && this.redact == redact
      ensures Between() == Start(Memory(startSequence, map[]))
    {
      this.redact := redact;
      pendingTools, nextSequence := map[], startSequence;
      stream := new NdjsonStream(codec);
    }

    function Remembered(): Memory
      reads this
    {
      Memory(nextSequence, pendingTools)
    }

    function Between(): Session<Memory, Event>
      reads this, stream
    {
      Session(stream.pending, stream.consumedBytes, Out(Remembered(), [], 0, 0))
    }

    method PushChunk(chunk: string) returns (b: Batch)
      modifies this, stream
      ensures var s := Turn(stream.codec, Effects(redact), old(Between()), chunk);
              && Between() == s.(out := Out(s.out.state, [], 0, 0))
              && b == Batch(s.out.events, s.out.rejected, s.out.ignored, s.consumed, Bytes(s.pending))
    {
      var read := stream.PushChunk(chunk);
      b := Consume(read);
    }

    method FinishStream() returns (b: Batch)
      modifies this, stream
      ensures var s := LastTurn(stream.codec, Effects(redact), old(Between()));
              && Between() == s.(out := Out(s.out.state, [], 0, 0))
              && b == Batch(s.out.events, s.out.rejected, s.out.ignored, s.consumed, Bytes(s.pending))
    {
      var read := stream.FinishStream();
      b := Consume(read);
    }

    method Consume(read: ReadResult<ProviderRecord>) returns (b: Batch)
      modifies this
      ensures var o := Steps(Effects(redact), Out(old(Remembered()), [], 0, read.rejected), read.records);
              && Remembered() == o.state
              && b == Batch(o.events, o.rejected, o.ignored, read.consumedBytes, read.pendingBytes)
    {
      hide EffectOf;
      var events: seq<Event> := [];
      var rejected: nat, ignored: nat := read.rejected, 0;
      for i := 0 to |read.records|
        invariant Out(Remembered(), events, ignored, rejected)
                  == Steps(Effects(redact), Out(old(Remembered()), [], 0, read.rejected), read.records[..i])
      {
        assert read.records[..i + 1][..i] == read.records[..i];
        var translated := TranslateRecord(read.records[i].value);
        events := events + translated.events;
        rejected := rejected + translated.rejected;
        ignored := ignored + translated.ignored;
      }
      assert read.records[..|read.records|] == read.records;
      b := Batch(events, rejected, ignored, read.consumedBytes, read.pendingBytes);
    }

    method TranslateRecord(v: ProviderRecord) returns (t: Effect<Memory, Event>)
      modifies this
      ensures t == EffectOf(redact, old(Remembered()), v) && Remembered() == t.state
    {
      match v.kind {
        case None => t := Reject(Remembered());
        case Some(kind) =>
          if kind != "assistant" && kind != "user" {
            t := Ignore(Remembered());
          } else {
            match v.message {
              case None => t := Reject(Remembered());
              case Some(Words(text)) =>
                t := WordsEffect(redact, Remembered(), text);
                nextSequence := t.state.next;
              case Some(Blocks(blocks)) => t := TranslateBlocks(blocks);
            }
          }
      }
    }

    method TranslateBlocks(blocks: seq<Block>) returns (t: Effect<Memory, Event>)
      modifies this
      ensures t == BlocksEffect(redact, old(Remembered()), blocks) && Remembered() == t.state
    {
      hide BlockEffect;
      t := NoOp(Remembered());
      for i := 0 to |blocks|
        invariant t == BlocksEffect(redact, old(Remembered()), blocks[..i]) && Remembered() == t.state
      {
        assert blocks[..i + 1][..i] == blocks[..i];
        var last := BlockEffect(redact, Remembered(), blocks[i]);
        pendingTools, nextSequence := last.state.pendingTools, last.state.next;
        t := Effect(last.state, t.events + last.events, t.ignored + last.ignored, t.rejected + last.rejected);
      }
      assert blocks[..|blocks|] == blocks;
    }
  }

  // ---- numbering ----------------------------------------------------------------------

  /** The events of an effect carry the numbers from the memory it started with to the one it leaves. */
  predicate Numbered(from: nat, events: seq<Event>, next: nat) {
    next == from + |events| && forall i :: 0 <= i < |events| ==> events[i].sequence == from + i
  }

  lemma {:induction false} BlocksAreNumbered(redact: string -> string, m: Memory, blocks: seq<Block>)
    ensures var e := BlocksEffect(redact, m, blocks); Numbered(m.next, e.events, e.state.next)
  {
    if blocks != [] {
      BlocksAreNumbered(redact, m, blocks[..|blocks| - 1]);
    }
  }

  /** Over all records read, in however many pushes: one number an event, no gap, no repeat. */
  lemma {:induction false} EventsAreNumbered(redact: string -> string, m: Memory, rejected: nat,
                                             records: seq<Record<ProviderRecord>>)
    ensures var o := Steps(Effects(redact), Out(m, [], 0, rejected), records);
            Numbered(m.next, o.events, o.state.next)
  {
    if records != [] {
      hide BlocksEffect, BlockEffect;
      EventsAreNumbered(redact, m, rejected, records[..|records| - 1]);
      var o := Steps(Effects(redact), Out(m, [], 0, rejected), records[..|records| - 1]);
      var v := records[|records| - 1].value;
      if v.message.Some? && v.message.value.Blocks? {
        BlocksAreNumbered(redact, o.state, v.message.value.blocks);
      }
    }
  }

  // ---- pairing calls with their results ---------------------------------------------------

  /** A tool call opens or closes. */
  datatype Mark = Opens(id: string, name: string) | Closes(id: string)

  function BlockMarks(b: Block): seq<Mark> {
    if b.kind == Some("tool_use") && b.use.Some? then [Opens(b.use.value.0, b.use.value.1)]
    else if b.kind == Some("tool_result") && b.done.Some? then [Closes(b.done.value)]
    else []
  }

  function BlocksMarks(blocks: seq<Block>): seq<Mark> {
    if blocks == [] then [] else BlocksMarks(blocks[..|blocks| - 1]) + BlockMarks(blocks[|blocks| - 1])
  }

  function RecordMarks(v: ProviderRecord): seq<Mark> {
    if (v.kind == Some("assistant") || v.kind == Some("user")) && v.message.Some? && v.message.value.Blocks?
    then BlocksMarks(v.message.value.blocks) else []
  }

  function StreamMarks(records: seq<Record<ProviderRecord>>): seq<Mark> {
    if records == [] then []
    else StreamMarks(records[..|records| - 1]) + RecordMarks(records[|records| - 1].value)
  }

  /** The name under which `id` is open: that of the last call with this id, if nothing closed it since. */
  function OpenName(marks: seq<Mark>, id: string): Option<string> {
    if marks == [] then None else
      var last := marks[|marks| - 1];
      if last.id != id then OpenName(marks[..|marks| - 1], id)
      else if last.Opens? then Some(last.name) else None
  }

  function Paired(before: seq<Mark>, mark: Mark): Payload {
    match mark
    case Opens(id, name) => Tool("started", id, name)
    case Closes(id) =>
      Tool("completed", id, match OpenName(before, id) case None => "unknown" case Some(name) => name)
  }

  /** What the marks `more` should be reported as, after `before`. */
  function PairedAfter(before: seq<Mark>, more: seq<Mark>): seq<Payload> {
    if more == [] then [] else
      var init := more[..|more| - 1];
      PairedAfter(before, init) + [Paired(before + init, more[|more| - 1])]
  }

  function Tools(events: seq<Event>): seq<Payload> {
    if events == [] then [] else
      var last := events[|events| - 1].payload;
      Tools(events[..|events| - 1]) + if last.Tool? then [last] else []
  }

  /** The memory holds exactly the open calls. */
  ghost predicate Remembers(m: Memory, marks: seq<Mark>) {
    forall id :: (if id in m.pendingTools then Some(m.pendingTools[id]) else None) == OpenName(marks, id)
  }

  lemma {:induction false} ToolsAppend(a: seq<Event>, b: seq<Event>)
    ensures Tools(a + b) == Tools(a) + Tools(b)
  {
    if b == [] {
      assert a + b == a;
    } else {
      ToolsAppend(a, b[..|b| - 1]);
      assert (a + b)[..|a + b| - 1] == a + b[..|b| - 1];
    }
  }

  lemma {:induction false} PairedAppend(before: seq<Mark>, a: seq<Mark>, b: seq<Mark>)
    ensures PairedAfter(before, a + b) == PairedAfter(before, a) + PairedAfter(before + a, b)
  {
    hide Paired;
    if b == [] {
      assert a + b == a;
    } else {
      var init := b[..|b| - 1];
      PairedAppend(before, a, init);
      assert (a + b)[..|a + b| - 1] == a + init && before + (a + init) == (before + a) + init;
    }
  }

  lemma BlockIsPaired(redact: string -> string, m: Memory, marks: seq<Mark>, b: Block)
    requires Remembers(m, marks)
    ensures var e := BlockEffect(redact, m, b);
            Remembers(e.state, marks + BlockMarks(b)) && Tools(e.events) == PairedAfter(marks, BlockMarks(b))
  {
    var e := BlockEffect(redact, m, b);
    assert |e.events| == 1 ==> e.events[..0] == [];
    assert marks + [] == marks;
    if BlockMarks(b) != [] {
      var mark := BlockMarks(b)[0];
      assert BlockMarks(b)[..0] == [] && (marks + [mark])[..|marks|] == marks;
      assert OpenName(marks, mark.id) == if mark.id in m.pendingTools then Some(m.pendingTools[mark.id]) else None;
    }
  }

  lemma {:induction false} BlocksArePaired(redact: string -> string, m: Memory, marks: seq<Mark>, blocks: seq<Block>)
    requires Remembers(m, marks)
    ensures var e := BlocksEffect(redact, m, blocks);
            Remembers(e.state, marks + BlocksMarks(blocks))
            && Tools(e.events) == PairedAfter(marks, BlocksMarks(blocks))
  {
    assert marks + [] == marks;
    if blocks != [] {
      hide BlockEffect, BlockMarks, Remembers, OpenName, Paired;
      var init, last := blocks[..|blocks| - 1], blocks[|blocks| - 1];
      BlocksArePaired(redact, m, marks, init);
      var e := BlocksEffect(redact, m, init);
      var sofar := marks + BlocksMarks(init);
      BlockIsPaired(redact, e.state, sofar, last);
      assert sofar + BlockMarks(last) == marks + BlocksMarks(blocks);
      ToolsAppend(e.events, BlockEffect(redact, e.state, last).events);
      PairedAppend(marks, BlocksMarks(init), BlockMarks(last));
    }
  }

  lemma RecordIsPaired(redact: string -> string, m: Memory, marks: seq<Mark>, v: ProviderRecord)
    requires Remembers(m, marks)
    ensures var e := EffectOf(redact, m, v);
            Remembers(e.state, marks + RecordMarks(v)) && Tools(e.events) == PairedAfter(marks, RecordMarks(v))
  {
    hide BlocksEffect, BlocksMarks, OpenName;
    var e := EffectOf(redact, m, v);
    assert marks + [] == marks;
    if v.message.Some? && v.message.value.Blocks? {
      BlocksArePaired(redact, m, marks, v.message.value.blocks);
    }
    assert |e.events| == 1 ==> e.events[..0] == [];
  }

  /** Every tool event names the call it belongs to, however the stream was cut into records and chunks. */
  lemma {:induction false} ToolsArePaired(redact: string -> string, start: nat, rejected: nat,
                                          records: seq<Record<ProviderRecord>>)
    ensures var o := Steps(Effects(redact), Out(Memory(start, map[]), [], 0, rejected), records);
            && Remembers(o.state, StreamMarks(records))
            && Tools(o.events) == PairedAfter([], StreamMarks(records))
  {
    if records != [] {
      hide EffectOf, RecordMarks, Remembers, OpenName, Paired, Tools, PairedAfter;
      var init := records[..|records| - 1];
      ToolsArePaired(redact, start, rejected, init);
      var o := Steps(Effects(redact), Out(Memory(start, map[]), [], 0, rejected), init);
      OneMoreIsPaired(redact, o.state, o.events, StreamMarks(init), records[|records| - 1].value);
    }
  }

  lemma OneMoreIsPaired(redact: string -> string, m: Memory, events: seq<Event>, marks: seq<Mark>, v: ProviderRecord)
    requires Remembers(m, marks) && Tools(events) == PairedAfter([], marks)
    ensures var e := EffectOf(redact, m, v);
            && Remembers(e.state, marks + RecordMarks(v))
            && Tools(events + e.events) == PairedAfter([], marks + RecordMarks(v))
  {
    hide EffectOf, RecordMarks, Remembers, OpenName, Paired, Tools, PairedAfter;
    RecordIsPaired(redact, m, marks, v);
    ToolsAppend(events, EffectOf(redact, m, v).events);
    PairedAppend([], marks, RecordMarks(v));
    assert [] + marks == marks;
  }

  // ---- what leaves the normalizer ---------------------------------------------------------

  function LogsOf(events: seq<Event>): seq<Payload> {
    if events == [] then [] else
      var last := events[|events| - 1].payload;
      LogsOf(events[..|events| - 1]) + if last.Log? then [last] else []
  }

  /** The text a block has to tell. */
  function BlockSays(b: Block): seq<string> {
    if b.kind == Some("text") && b.text.Some? && b.text.value != "" then [b.text.value] else []
  }

  function BlocksSay(blocks: seq<Block>): seq<string> {
    if blocks == [] then [] else BlocksSay(blocks[..|blocks| - 1]) + BlockSays(blocks[|blocks| - 1])
  }

  function RecordSays(v: ProviderRecord): seq<string> {
    if (v.kind != Some("assistant") && v.kind != Some("user")) || v.message.None? then []
    else match v.message.value
         case Words(text) => if text == "" then [] else [text]
         case Blocks(blocks) => BlocksSay(blocks)
  }

  function AllSaid(records: seq<Record<ProviderRecord>>): seq<string> {
    if records == [] then [] else AllSaid(records[..|records| - 1]) + RecordSays(records[|records| - 1].value)
  }

  function Redacted(redact: string -> string, said: seq<string>): seq<Payload> {
    seq(|said|, i requires 0 <= i < |said| => Log("info", redact(said[i])))
  }

  lemma RedactedAppend(redact: string -> string, a: seq<string>, b: seq<string>)
    ensures Redacted(redact, a + b) == Redacted(redact, a) + Redacted(redact, b)
  {
  }

  lemma {:induction false} LogsAppend(a: seq<Event>, b: seq<Event>)
    ensures LogsOf(a + b) == LogsOf(a) + LogsOf(b)
  {
    if b == [] {
      assert a + b == a;
    } else {
      LogsAppend(a, b[..|b| - 1]);
      assert (a + b)[..|a + b| - 1] == a + b[..|b| - 1];
    }
  }

  lemma OneBlockSays(redact: string -> string, m: Memory, b: Block)
    ensures LogsOf(BlockEffect(redact, m, b).events) == Redacted(redact, BlockSays(b))
  {
    var events := BlockEffect(redact, m, b).events;
    assert |events| <= 1;
    if events != [] {
      assert events[..0] == [];
    }
  }

  lemma {:induction false} BlocksAreSaid(redact: string -> string, m: Memory, blocks: seq<Block>)
    ensures LogsOf(BlocksEffect(redact, m, blocks).events) == Redacted(redact, BlocksSay(blocks))
  {
    if blocks != [] {
      hide BlockEffect, BlockSays, LogsOf;
      var init, last := blocks[..|blocks| - 1], blocks[|blocks| - 1];
      BlocksAreSaid(redact, m, init);
      var before := BlocksEffect(redact, m, init);
      OneBlockSays(redact, before.state, last);
      LogsAppend(before.events, BlockEffect(redact, before.state, last).events);
      RedactedAppend(redact, BlocksSay(init), BlockSays(last));
    }
  }

  lemma OneRecordSays(redact: string -> string, m: Memory, v: ProviderRecord)
    ensures LogsOf(EffectOf(redact, m, v).events) == Redacted(redact, RecordSays(v))
  {
    hide BlocksEffect, BlocksSay;
    if v.message.Some? && v.message.value.Blocks? {
      BlocksAreSaid(redact, m, v.message.value.blocks);
    } else {
      var events := EffectOf(redact, m, v).events;
      assert |events| <= 1 && (events != [] ==> events[..0] == []);
    }
  }

  /**
   * Over any records: the log messages are the redactions of what the records say, one by one and in order.
   * The names and ids of tool events, which ToolsArePaired describes, are the provider's as they are.
   */
  lemma {:induction false} LogsAreRedacted(redact: string -> string, m: Memory, rejected: nat,
                                           records: seq<Record<ProviderRecord>>)
    ensures LogsOf(Steps(Effects(redact), Out(m, [], 0, rejected), records).events)
            == Redacted(redact, AllSaid(records))
  {
    if records != [] {
      hide EffectOf, RecordSays, LogsOf;
      var init, v := records[..|records| - 1], records[|records| - 1].value;
      LogsAreRedacted(redact, m, rejected, init);
      var o := Steps(Effects(redact), Out(m, [], 0, rejected), init);
      OneRecordSays(redact, o.state, v);
      LogsAppend(o.events, EffectOf(redact, o.state, v).events);
      RedactedAppend(redact, AllSaid(init), RecordSays(v));
    } else {
      NoLogs();
    }
  }

  lemma NoLogs()
    ensures LogsOf([]) == []
  {
  }

  // ---- what it rejects --------------------------------------------------------------------

  function Count<S>(s: seq<S>, p: S -> bool): nat {
    if s == [] then 0 else Count(s[..|s| - 1], p) + if p(s[|s| - 1]) then 1 else 0
  }

  /** A schema refuses the block: no kind, a text without text, a call or a result that does not say which. */
  predicate MalformedBlock(b: Block) {
    || b.kind.None?
    || (b.kind == Some("text") && b.text.None?)
    || (b.kind == Some("tool_use") && b.use.None?)
    || (b.kind == Some("tool_result") && b.done.None?)
  }

  /** A block of some other kind, such as a thought or an image. */
  predicate OtherBlock(b: Block) {
    b.kind.Some? && b.kind.value !in {"text", "tool_use", "tool_result"}
  }

  predicate IsMessage(v: ProviderRecord) { v.kind == Some("assistant") || v.kind == Some("user") }

  /** The blocks of a message that has some; else a record stands and falls as a whole. */
  function BlocksOf(v: ProviderRecord): seq<Block> {
    if IsMessage(v) && v.message.Some? && v.message.value.Blocks? then v.message.value.blocks else []
  }

  predicate Malformed(v: ProviderRecord) { v.kind.None? || (IsMessage(v) && v.message.None?) }

  const REFUSED: ProviderRecord -> nat := (v: ProviderRecord) =>
    if Malformed(v) then 1 else Count(BlocksOf(v), MalformedBlock)

  const SKIPPED: ProviderRecord -> nat := (v: ProviderRecord) =>
    if v.kind.Some? && !IsMessage(v) then 1 else Count(BlocksOf(v), OtherBlock)

  lemma {:induction false} BlocksCount(redact: string -> string, m: Memory, blocks: seq<Block>)
    ensures var e := BlocksEffect(redact, m, blocks);
            e.rejected == Count(blocks, MalformedBlock) && e.ignored == Count(blocks, OtherBlock)
  {
    if blocks != [] {
      BlocksCount(redact, m, blocks[..|blocks| - 1]);
    }
  }

  lemma EffectsCount(redact: string -> string)
    ensures forall m, v :: Effects(redact)(m, v).rejected == REFUSED(v)
    ensures forall m, v :: Effects(redact)(m, v).ignored == SKIPPED(v)
  {
    hide BlocksEffect, MalformedBlock, OtherBlock;
    forall m, v ensures Effects(redact)(m, v).rejected == REFUSED(v) && Effects(redact)(m, v).ignored == SKIPPED(v) {
      BlocksCount(redact, m, BlocksOf(v));
    }
  }

  /** Nothing in the record is refused. */
  predicate WellFormed(v: ProviderRecord) {
    !Malformed(v) && forall i :: 0 <= i < |BlocksOf(v)| ==> !MalformedBlock(BlocksOf(v)[i])
  }

  lemma {:induction false} CountNone<S>(s: seq<S>, p: S -> bool)
    ensures Count(s, p) == 0 <==> forall i :: 0 <= i < |s| ==> !p(s[i])
  {
    if s != [] {
      CountNone(s[..|s| - 1], p);
    }
  }

  lemma RefusedIff(v: ProviderRecord)
    ensures REFUSED(v) == 0 <==> WellFormed(v)
  {
    hide MalformedBlock, BlocksOf;
    CountNone(BlocksOf(v), MalformedBlock);
  }

  /**
   * Over any records: rejected are, besides what the framing rejected, exactly the records and blocks a schema
   * refuses, and ignored exactly the records and blocks of other kinds; an empty text counts as neither.
   */
  lemma MalformedIsRejected(redact: string -> string, m: Memory, rejected: nat, records: seq<Record<ProviderRecord>>)
    ensures var o := Steps(Effects(redact), Out(m, [], 0, rejected), records);
            && o.rejected == rejected + Refusals(REFUSED, records)
            && o.ignored == Refusals(SKIPPED, records)
            && (o.rejected == rejected <==> forall i :: 0 <= i < |records| ==> WellFormed(records[i].value))
  {
    hide Effects, WellFormed;
    EffectsCount(redact);
    RefusedIsRejected(Effects(redact), REFUSED, Out(m, [], 0, rejected), records);
    SkippedIsIgnored(Effects(redact), SKIPPED, Out(m, [], 0, rejected), records);
    NoneRefusedIff(records);
  }

  lemma {:induction false} NoneRefusedIff(records: seq<Record<ProviderRecord>>)
    ensures Refusals(REFUSED, records) == 0 <==> forall i :: 0 <= i < |records| ==> WellFormed(records[i].value)
  {
    if records != [] {
      hide WellFormed;
      RefusedIff(records[|records| - 1].value);
      NoneRefusedIff(records[..|records| - 1]);
    }
  }

  /** A line that is blank, or fits and parses to a record in which nothing is refused. */
  predicate FreeOfFault(codec: Codec<ProviderRecord>, line: string) {
    IsBlank(line) || (Bytes(line) <= codec.max && codec.parse(line).Some? && WellFormed(codec.parse(line).value))
  }

  /**
   * Over any cutting of a bounded stream and its end: one rejection for each line that does not parse and for
   * each record or block that is malformed, and none at all exactly if every line is free of fault.
   */
  lemma StreamRejectsFaults(codec: Codec<ProviderRecord>, redact: string -> string, m: Memory, chunks: seq<string>)
    requires Bounded(codec.max, Concat(chunks))
    ensures var lines := Lines(Concat(chunks)) + [Rest(Concat(chunks))];
            var o := LastTurn(codec, Effects(redact), Turns(codec, Effects(redact), Start(m), chunks)).out;
            && o.rejected == Faults(codec, REFUSED, lines)
            && (o.rejected == 0 <==> forall i :: 0 <= i < |lines| ==> FreeOfFault(codec, lines[i]))
  {
    hide Lines, Rest, Bytes, IsBlank, Effects, Turns, LastTurn, WellFormed, Bounded, Concat, Malformed, BlocksOf;
    EffectsCount(redact);
    StreamFaults(codec, Effects(redact), REFUSED, m, chunks);
    var lines := Lines(Concat(chunks)) + [Rest(Concat(chunks))];
    NoFaultIff(codec, REFUSED, lines);
    forall i | 0 <= i < |lines| ensures Fault(codec, REFUSED, lines[i]) == 0 <==> FreeOfFault(codec, lines[i]) {
      if codec.parse(lines[i]).Some? {
        RefusedIff(codec.parse(lines[i]).value);
      }
    }
  }

  /** Pairing and numbering over the chunks of a bounded stream, before and after its end. */
  lemma StreamIsPairedAndNumbered(codec: Codec<ProviderRecord>, redact: string -> string, start: nat,
                                  chunks: seq<string>)
    requires Bounded(codec.max, Concat(chunks))
    ensures var s := Turns(codec, Effects(redact), Start(Memory(start, map[])), chunks);
            var records := Whole(codec, Nothing(0), Concat(chunks)).tally.records;
            && Numbered(start, s.out.events, s.out.state.next)
            && Tools(s.out.events) == PairedAfter([], StreamMarks(records))
    ensures var s := LastTurn(codec, Effects(redact),
                              Turns(codec, Effects(redact), Start(Memory(start, map[])), chunks));
            var records := Finish(codec, Whole(codec, Nothing(0), Concat(chunks))).tally.records;
            && Numbered(start, s.out.events, s.out.state.next)
            && Tools(s.out.events) == PairedAfter([], StreamMarks(records))
            && s.consumed == Bytes(Concat(chunks)) && s.pending == ""
  {
    hide Steps, Effects, AddLines, Tools, PairedAfter, StreamMarks, Remembers, Numbered, Finish, Feed, Turns;
    var text := Concat(chunks);
    assert "" + text == text;
    var m := Memory(start, map[]);
    TurnsTranslate(codec, Effects(redact), m, chunks);
    LastTurnTranslates(codec, Effects(redact), m, chunks);
    CutsDoNotMatter(codec, Reader("", Nothing(0)), chunks);
    WholeLife(codec, chunks);
    var t := AddLines(codec, Nothing(0), Lines(text));
    EventsAreNumbered(redact, m, t.rejected, t.records);
    ToolsArePaired(redact, start, t.rejected, t.records);
    var all := Finish(codec, Whole(codec, Nothing(0), text)).tally;
    EventsAreNumbered(redact, m, all.rejected, all.records);
    ToolsArePaired(redact, start, all.rejected, all.records);
  }
}
