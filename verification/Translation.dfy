/** What a provider normalizer does with the records a stream frames, whatever the provider. */
module Translation {
  import opened Options
  import opened Text
  import opened Ndjson
  import Cuts

  /** What one record turns into, given the state its predecessors left. */
  datatype Effect<T, E> = Effect(state: T, events: seq<E>, ignored: nat, rejected: nat)

  type Translator<!V, !T, E> = (T, V) -> Effect<T, E>

  /** Everything translated so far. */
  datatype Out<T, E> = Out(state: T, events: seq<E>, ignored: nat, rejected: nat)

  function Step<V, T, E>(f: Translator<V, T, E>, o: Out<T, E>, v: V): Out<T, E> {
    var e := f(o.state, v);
    Out(e.state, o.events + e.events, o.ignored + e.ignored, o.rejected + e.rejected)
  }

  function Steps<V, T, E>(f: Translator<V, T, E>, o: Out<T, E>, records: seq<Record<V>>): Out<T, E> {
    if records == [] then o
    else Step(f, Steps(f, o, records[..|records| - 1]), records[|records| - 1].value)
  }

  /** A batch put behind what earlier batches reported. */
  function Merge<T, E>(o: Out<T, E>, more: Out<T, E>): Out<T, E> {
    Out(more.state, o.events + more.events, o.ignored + more.ignored, o.rejected + more.rejected)
  }

  lemma {:induction false} StepsMerge<V, T, E>(f: Translator<V, T, E>, o: Out<T, E>,
                                      rejected: nat, records: seq<Record<V>>)
    ensures Steps(f, o.(rejected := o.rejected + rejected), records)
            == Merge(o, Steps(f, Out(o.state, [], 0, rejected), records))
  {
    if records != [] {
      StepsMerge(f, o, rejected, records[..|records| - 1]);
    }
  }

  lemma {:induction false} StepsAppend<V, T, E>(f: Translator<V, T, E>, o: Out<T, E>,
                                       a: seq<Record<V>>, b: seq<Record<V>>)
    ensures Steps(f, o, a + b) == Steps(f, Steps(f, o, a), b)
  {
    hide Step;
    if b == [] {
      assert a + b == a;
    } else {
      StepsAppend(f, o, a, b[..|b| - 1]);
      assert (a + b)[..|a + b| - 1] == a + b[..|b| - 1];
    }
  }

  lemma {:induction false} StepsReject<V, T, E>(f: Translator<V, T, E>, o: Out<T, E>, k: nat, records: seq<Record<V>>)
    ensures Steps(f, o.(rejected := o.rejected + k), records)
            == Steps(f, o, records).(rejected := Steps(f, o, records).rejected + k)
  {
    if records != [] {
      StepsReject(f, o, k, records[..|records| - 1]);
    }
  }

  /** A normalizer between two chunks, together with everything it has reported. */
  datatype Session<T, E> = Session(pending: string, consumed: nat, out: Out<T, E>)

  /** One push: frame the chunk, translate its records, report the batch. */
  function Turn<V, T, E>(codec: Codec<V>, f: Translator<V, T, E>, s: Session<T, E>, chunk: string): Session<T, E> {
    var read := Push(codec, Reader(s.pending, Nothing(s.consumed)), chunk);
    var batch := Steps(f, Out(s.out.state, [], 0, read.tally.rejected), read.tally.records);
    Session(read.pending, read.tally.consumed, Merge(s.out, batch))
  }

  /** The final fragment, taken once the provider has exited. */
  function LastTurn<V, T, E>(codec: Codec<V>, f: Translator<V, T, E>, s: Session<T, E>): Session<T, E> {
    var read := Finish(codec, Reader(s.pending, Nothing(s.consumed)));
    var batch := Steps(f, Out(s.out.state, [], 0, read.tally.rejected), read.tally.records);
    Session(read.pending, read.tally.consumed, Merge(s.out, batch))
  }

  function Turns<V, T, E>(codec: Codec<V>, f: Translator<V, T, E>, s: Session<T, E>,
                          chunks: seq<string>): Session<T, E> {
    if chunks == [] then s else Turn(codec, f, Turns(codec, f, s, chunks[..|chunks| - 1]), chunks[|chunks| - 1])
  }

  function Start<T, E>(t: T): Session<T, E> {
    Session("", 0, Out(t, [], 0, 0))
  }

  /** Translating a reading in one go. */
  function Translated<V, T, E>(f: Translator<V, T, E>, t: T, r: Reader<V>): Session<T, E> {
    Session(r.pending, r.tally.consumed, Steps(f, Out(t, [], 0, r.tally.rejected), r.tally.records))
  }

  lemma TurnTranslates<V, T, E>(codec: Codec<V>, f: Translator<V, T, E>, t: T, r: Reader<V>, chunk: string)
    ensures Turn(codec, f, Translated(f, t, r), chunk) == Translated(f, t, Push(codec, r, chunk))
  {
    hide Push, Steps, Step, Merge;
    var read := Push(codec, Reader(r.pending, Nothing(r.tally.consumed)), chunk);
    var o := Steps(f, Out(t, [], 0, r.tally.rejected), r.tally.records);
    PushCollects(codec, r, chunk);
    StepsMerge(f, o, read.tally.rejected, read.tally.records);
    StepsReject(f, Out(t, [], 0, r.tally.rejected), read.tally.rejected, r.tally.records);
    StepsAppend(f, Out(t, [], 0, r.tally.rejected + read.tally.rejected), r.tally.records, read.tally.records);
  }

  /** Chunk by chunk or all at once: a normalizer reports the translation of what was read. */
  lemma {:induction false} TurnsTranslate<V, T, E>(codec: Codec<V>, f: Translator<V, T, E>, t: T, chunks: seq<string>)
    ensures Turns(codec, f, Start(t), chunks) == Translated(f, t, Feed(codec, Reader("", Nothing(0)), chunks))
  {
    if chunks != [] {
      hide Push, Steps, Turn;
      TurnsTranslate(codec, f, t, chunks[..|chunks| - 1]);
      TurnTranslates(codec, f, t, Feed(codec, Reader("", Nothing(0)), chunks[..|chunks| - 1]), chunks[|chunks| - 1]);
    }
  }

  /** On a stream that is safe to cut, every cutting yields the same events, counts, offset and remaining state. */
  lemma CutsDoNotMatterToEvents<V, T, E>(codec: Codec<V>, f: Translator<V, T, E>, t: T,
                                         one: seq<string>, other: seq<string>)
    requires Concat(one) == Concat(other) && Cuts.CutSafe(codec.max, Concat(one))
    ensures Turns(codec, f, Start(t), one) == Turns(codec, f, Start(t), other)
  {
    TurnsTranslate(codec, f, t, one);
    TurnsTranslate(codec, f, t, other);
    Cuts.SafeTextsReadAlike(codec, one, other);
  }

  /** The same holds of the whole life of a normalizer, its last fragment included. */
  lemma LastTurnTranslates<V, T, E>(codec: Codec<V>, f: Translator<V, T, E>, t: T, chunks: seq<string>)
    ensures LastTurn(codec, f, Turns(codec, f, Start(t), chunks))
            == Translated(f, t, Finish(codec, Feed(codec, Reader("", Nothing(0)), chunks)))
  {
    hide Push, Steps, Step, Merge, Finish;
    var r := Feed(codec, Reader("", Nothing(0)), chunks);
    var read := Finish(codec, Reader(r.pending, Nothing(r.tally.consumed)));
    TurnsTranslate(codec, f, t, chunks);
    FinishCollects(codec, r);
    StepsMerge(f, Steps(f, Out(t, [], 0, r.tally.rejected), r.tally.records), read.tally.rejected, read.tally.records);
    StepsReject(f, Out(t, [], 0, r.tally.rejected), read.tally.rejected, r.tally.records);
    StepsAppend(f, Out(t, [], 0, r.tally.rejected + read.tally.rejected), r.tally.records, read.tally.records);
  }

  // ---- what is rejected, counted on the records and on the lines ------------------------

  /** How much of these records a schema refuses, `refused` saying it of one. */
  function Refusals<V>(refused: V -> nat, records: seq<Record<V>>): nat {
    if records == [] then 0
    else Refusals(refused, records[..|records| - 1]) + refused(records[|records| - 1].value)
  }

  /** A line at fault: one that says something and is too long or does not parse, or what is refused of it. */
  function Fault<V>(codec: Codec<V>, refused: V -> nat, line: string): nat {
    if IsBlank(line) then 0
    else if Bytes(line) > codec.max || codec.parse(line).None? then 1
    else refused(codec.parse(line).value)
  }

  function Faults<V>(codec: Codec<V>, refused: V -> nat, lines: seq<string>): nat {
    if lines == [] then 0
    else Faults(codec, refused, lines[..|lines| - 1]) + Fault(codec, refused, lines[|lines| - 1])
  }

  lemma {:induction false} RefusedIsRejected<V(!new), T(!new), E>(f: Translator<V, T, E>, refused: V -> nat,
                                                                  o: Out<T, E>, records: seq<Record<V>>)
    requires forall t, v :: f(t, v).rejected == refused(v)
    ensures Steps(f, o, records).rejected == o.rejected + Refusals(refused, records)
  {
    if records != [] {
      var init, v := records[..|records| - 1], records[|records| - 1].value;
      RefusedIsRejected(f, refused, o, init);
      assert f(Steps(f, o, init).state, v).rejected == refused(v);
    }
  }

  lemma {:induction false} SkippedIsIgnored<V(!new), T(!new), E>(f: Translator<V, T, E>, skipped: V -> nat,
                                                                 o: Out<T, E>, records: seq<Record<V>>)
    requires forall t, v :: f(t, v).ignored == skipped(v)
    ensures Steps(f, o, records).ignored == o.ignored + Refusals(skipped, records)
  {
    if records != [] {
      var init, v := records[..|records| - 1], records[|records| - 1].value;
      SkippedIsIgnored(f, skipped, o, init);
      assert f(Steps(f, o, init).state, v).ignored == skipped(v);
    }
  }

  lemma {:induction false} LinesAtFault<V>(codec: Codec<V>, refused: V -> nat, base: nat, lines: seq<string>)
    ensures var t := AddLines(codec, Nothing(base), lines);
            t.rejected + Refusals(refused, t.records) == Faults(codec, refused, lines)
  {
    if lines != [] {
      hide Bytes, IsBlank;
      LinesAtFault(codec, refused, base, lines[..|lines| - 1]);
    }
  }

  lemma FragmentAtFault<V>(codec: Codec<V>, refused: V -> nat, r: Reader<V>)
    ensures var t := Finish(codec, r).tally;
            t.rejected + Refusals(refused, t.records)
            == r.tally.rejected + Refusals(refused, r.tally.records) + Fault(codec, refused, r.pending)
  {
    hide Bytes, IsBlank;
  }

  /** What a normalizer rejects of a bounded stream, however it is cut, is what is at fault in its lines. */
  lemma StreamFaults<V(!new), T(!new), E>(codec: Codec<V>, f: Translator<V, T, E>, refused: V -> nat, t: T,
                                          chunks: seq<string>)
    requires Bounded(codec.max, Concat(chunks))
    requires forall t, v :: f(t, v).rejected == refused(v)
    ensures Turns(codec, f, Start(t), chunks).out.rejected == Faults(codec, refused, Lines(Concat(chunks)))
    ensures LastTurn(codec, f, Turns(codec, f, Start(t), chunks)).out.rejected
            == Faults(codec, refused, Lines(Concat(chunks)) + [Rest(Concat(chunks))])
  {
    hide Steps, AddLines, Turns, Turn, Finish, Feed, Lines, Rest, Bytes, Fault;
    var text := Concat(chunks);
    assert "" + text == text;
    TurnsTranslate(codec, f, t, chunks);
    LastTurnTranslates(codec, f, t, chunks);
    CutsDoNotMatter(codec, Reader("", Nothing(0)), chunks);
    var read := AddLines(codec, Nothing(0), Lines(text));
    var all := Finish(codec, Reader(Rest(text), read)).tally;
    LinesAtFault(codec, refused, 0, Lines(text));
    FragmentAtFault(codec, refused, Reader(Rest(text), read));
    RefusedIsRejected(f, refused, Out(t, [], 0, read.rejected), read.records);
    RefusedIsRejected(f, refused, Out(t, [], 0, all.rejected), all.records);
  }

  lemma {:induction false} NoFaultIff<V>(codec: Codec<V>, refused: V -> nat, lines: seq<string>)
    ensures Faults(codec, refused, lines) == 0
            <==> forall i :: 0 <= i < |lines| ==> Fault(codec, refused, lines[i]) == 0
  {
    if lines != [] {
      hide Fault;
      NoFaultIff(codec, refused, lines[..|lines| - 1]);
    }
  }
}
