/** A codec that meets both laws the log theorems ask of JSON: fields between braces, apart by slashes. */
module PlainRecords {
  import opened Options
  import opened Text
  import opened EventLog
  import opened LogLaws
  import PathContainment

  predicate Plain(s: string) {
    forall i :: 0 <= i < |s| ==> s[i] != '/' && s[i] != '{' && s[i] != '\n'
  }

  /** A number as that many strokes. */
  function Strokes(n: nat): (s: string)
    ensures |s| == n && Plain(s)
  {
    seq(n, _ => '|')
  }

  predicate Encodable(e: Event) {
    Plain(e.taskId) && Plain(e.runId) && Plain(e.timestamp) && Plain(e.kind) && Plain(e.payload)
  }

  function Fields(e: Event): seq<string> {
    [e.taskId, e.runId, Strokes(e.sequence), e.timestamp, e.kind, e.payload]
  }

  function Slashed(fields: seq<string>): string
    requires fields != []
  {
    if |fields| == 1 then fields[0] else Slashed(fields[..|fields| - 1]) + "/" + fields[|fields| - 1]
  }

  function Encode(e: Event): string {
    "{" + Slashed(Fields(e)) + "}"
  }

  function Decode(line: string): Option<Event> {
    if |line| < 2 || line[0] != '{' || line[|line| - 1] != '}' || '{' in line[1..] then None else
      var fields := PathContainment.Pieces(line[1..|line| - 1]);
      if |fields| != 6 then None
      else Some(Event(fields[0], fields[1], |fields[2]|, fields[3], fields[4], fields[5]))
  }

  function PlainCodec(): Codec {
    Codec(Encodable, Encode, Decode)
  }

  lemma {:induction false} SlashedFields(fields: seq<string>)
    requires fields != [] && forall i :: 0 <= i < |fields| ==> Plain(fields[i])
    ensures PathContainment.Pieces(Slashed(fields)) == fields
    ensures '{' !in Slashed(fields) && '\n' !in Slashed(fields)
  {
    hide PathContainment.Pieces;
    var init, last := fields[..|fields| - 1], fields[|fields| - 1];
    PathContainment.OnePiece(last);
    if |fields| > 1 {
      SlashedFields(init);
      PathContainment.PiecesAppend(Slashed(init), last);
      assert init + [last] == fields;
    }
  }

  lemma EncodedIsDecoded(e: Event)
    requires Encodable(e)
    ensures Decode(Encode(e)) == Some(e)
    ensures '\n' !in Encode(e) && !IsBlank(Encode(e)) && Encode(e)[0] == '{' && '{' !in Encode(e)[1..]
  {
    hide PathContainment.Pieces, Slashed;
    SlashedFields(Fields(e));
    var line := Encode(e);
    assert line[1..|line| - 1] == Slashed(Fields(e));
    assert line[1..] == Slashed(Fields(e)) + "}";
    assert !IsSpace(line[0]);
  }

  /** Every record of plain fields can be written, and the two laws hold together. */
  lemma LawsCanBeMet()
    ensures Lawful(PlainCodec()) && GlueIsUnreadable(PlainCodec())
    ensures forall e :: PlainCodec().encodable(e) <==> Encodable(e)
  {
    var codec := PlainCodec();
    forall e: Event | codec.encodable(e)
      ensures codec.decode(codec.encode(e)) == Some(e) && '\n' !in codec.encode(e) && !IsBlank(codec.encode(e))
    {
      EncodedIsDecoded(e);
    }
    forall tail: string, e: Event | tail != "" && TornTail(codec, tail) && codec.encodable(e)
      ensures LineEvents(codec, tail + codec.encode(e)) == []
    {
      hide Encode, Decode;
      EncodedIsDecoded(e);
      SecondBrace(tail, Encode(e));
    }
  }

  lemma SecondBrace(tail: string, line: string)
    requires tail != "" && line != "" && line[0] == '{'
    ensures Decode(tail + line).None?
  {
    assert (tail + line)[1..][|tail| - 1] == '{';
  }
}
