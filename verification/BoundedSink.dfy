/** The sink that persists a worker's output within a byte budget. */
module BoundedSink {

  type byte = bv8

  /** The first `n` bytes, or all there are. */
  function Upto(s: seq<byte>, n: nat): seq<byte> {
    if n < |s| then s[..n] else s
  }

  function Room(limit: nat, used: nat): nat {
    if used < limit then limit - used else 0
  }

  function Concat(chunks: seq<seq<byte>>): seq<byte> {
    if chunks == [] then [] else Concat(chunks[..|chunks| - 1]) + chunks[|chunks| - 1]
  }

  class FileHandle {
    var contents: seq<byte>

    constructor (contents: seq<byte>)
      ensures this.contents == contents
    {
      this.contents := contents;
    }

    /** An append: the system takes up to `takes` of the bytes, none at all if that is not positive. */
    method Write(buffer: seq<byte>, takes: int) returns (bytesWritten: nat)
      modifies this
      ensures bytesWritten == Taken(takes, |buffer|) && contents == old(contents) + buffer[..bytesWritten]
    {
      bytesWritten := Taken(takes, |buffer|);
      contents := contents + buffer[..bytesWritten];
    }

    /**
     * Short writes are continued where they stopped; an error or a write without progress gives up.
     * `device(k)` is what the k-th write takes.
     */
    method WriteAll(buffer: seq<byte>, device: nat -> int) returns (ok: bool)
      modifies this
      ensures contents == old(contents) + buffer[..Reached(device, 0, |buffer|)]
      ensures ok <==> Reached(device, 0, |buffer|) == |buffer|
    {
      var offset: nat, k: nat := 0, 0;
      while offset < |buffer|
        invariant offset <= |buffer| && contents == old(contents) + buffer[..offset]
        invariant Reached(device, 0, |buffer|) == offset + Reached(device, k, |buffer| - offset)
        decreases |buffer| - offset
      {
        var n := Write(buffer[offset..], device(k));
        assert buffer[..offset] + buffer[offset..][..n] == buffer[..offset + n];
        if n == 0 {
          return false;
        }
        offset, k := offset + n, k + 1;
      }
      ok := true;
    }
  }

  function Taken(takes: int, offered: nat): (n: nat)
    ensures n <= offered
  {
    if takes <= 0 then 0 else if takes < offered then takes else offered
  }

  /** How far repeated writes get with `left` bytes, from the k-th on. */
  function Reached(device: nat -> int, k: nat, left: nat): (n: nat)
    ensures n <= left
    decreases left
  {
    var n := Taken(device(k), left);
    if n == 0 then 0 else n + Reached(device, k + 1, left - n)
  }

  /** A device that always makes progress takes everything, however short its writes. */
  lemma {:induction false} ProgressReachesTheEnd(device: nat -> int, k: nat, left: nat)
    requires forall j :: j >= k ==> device(j) > 0
    ensures Reached(device, k, left) == left
    decreases left
  {
    if left > 0 {
      ProgressReachesTheEnd(device, k + 1, left - Taken(device(k), left));
    }
  }

  // ---- the sink ------------------------------------------------------------------------------

  /** The file, the bytes seen and kept, and how often the limit was reported. */
  datatype Ledger = Ledger(file: seq<byte>, observed: nat, persisted: nat, reported: bool, calls: nat)

  /** What one chunk does when its bytes can be written. */
  function Take(limit: nat, l: Ledger, chunk: seq<byte>): Ledger {
    var accepted := Upto(chunk, Room(limit, l.persisted));
    var crossed := |accepted| < |chunk| && !l.reported;
    Ledger(l.file + accepted, l.observed + |chunk|, l.persisted + |accepted|, l.reported || crossed,
           l.calls + if crossed then 1 else 0)
  }

  function TakeAll(limit: nat, initial: seq<byte>, chunks: seq<seq<byte>>): Ledger {
    if chunks == [] then Ledger(initial, |initial|, |initial|, false, 0)
    else Take(limit, TakeAll(limit, initial, chunks[..|chunks| - 1]), chunks[|chunks| - 1])
  }

  class Sink {
    const handle: FileHandle
    const maxBytes: nat
    var observedBytes: nat
    var persistedBytes: nat
    var limitReported: bool
    /** How often onLimit and onError were called. */
    var limitCalls: nat
    var errorCalls: nat

    function Abs(): Ledger
      reads this, handle
    {
      Ledger(handle.contents, observedBytes, persistedBytes, limitReported, limitCalls)
    }

    constructor (handle: FileHandle, maxBytes: nat)
      ensures this.handle == handle && this.maxBytes == maxBytes && errorCalls == 0
      ensures Abs() == TakeAll(maxBytes, handle.contents, [])
    {
      this.handle, this.maxBytes := handle, maxBytes;
      observedBytes, persistedBytes := |handle.contents|, |handle.contents|;
      limitReported, limitCalls, errorCalls := false, 0, 0;
    }

    /** Counting and reporting do not depend on the device; an error is reported once and loses what was not reached. */
    method WriteChunk(buffer: seq<byte>, device: nat -> int) returns (ok: bool)
      modifies this, handle
      ensures var l := Take(maxBytes, old(Abs()), buffer);
              var accepted := Upto(buffer, Room(maxBytes, old(persistedBytes)));
              && Abs() == l.(file := old(handle.contents) + accepted[..Reached(device, 0, |accepted|)])
              && (ok <==> Reached(device, 0, |accepted|) == |accepted|)
              && (ok ==> Abs() == l)
      ensures errorCalls == old(errorCalls) + if ok then 0 else 1
    {
      observedBytes := observedBytes + |buffer|;
      var remaining := Room(maxBytes, persistedBytes);
      var accepted := Upto(buffer, remaining);
      persistedBytes := persistedBytes + |accepted|;
      if |accepted| < |buffer| && !limitReported {
        limitReported := true;
        limitCalls := limitCalls + 1;
      }
      ok := handle.WriteAll(accepted, device);
      assert ok ==> accepted[..|accepted|] == accepted;
      if !ok {
        errorCalls := errorCalls + 1;
      }
    }
  }

  // ---- over a whole stream, whatever its chunks -------------------------------------------------

  /** What fits of a longer stream is what fitted, and of the rest what still has room. */
  lemma Split(a: seq<byte>, b: seq<byte>, room: nat)
    ensures Upto(a + b, room) == Upto(a, room) + Upto(b, Room(room, |a|))
    ensures |a + b| > room <==> |a| > room || |Upto(b, Room(room, |a|))| < |b|
  {
    if |a| < room {
      assert (a + b)[..if room < |a + b| then room else |a + b|] == a + Upto(b, Room(room, |a|));
    } else {
      assert Upto(b, Room(room, |a|)) == [];
    }
  }

  /**
   * However the stream is cut: the file holds its longest prefix that fits, never more than the limit
   * or what it held before; every byte is counted; the limit is reported once, exactly if bytes were dropped.
   */
  lemma {:induction false} CutsDoNotMatter(limit: nat, initial: seq<byte>, chunks: seq<seq<byte>>)
    ensures var l, text, room := TakeAll(limit, initial, chunks), Concat(chunks), Room(limit, |initial|);
            && l.file == initial + Upto(text, room)
            && |l.file| <= (if |initial| < limit then limit else |initial|)
            && l.observed == |initial| + |text| && l.persisted == |l.file|
            && l.calls == (if |text| > room then 1 else 0) && l.reported == (|text| > room)
  {
    if chunks != [] {
      var init, last := chunks[..|chunks| - 1], chunks[|chunks| - 1];
      CutsDoNotMatter(limit, initial, init);
      var text, room := Concat(init), Room(limit, |initial|);
      Split(text, last, room);
      assert initial + Upto(text, room) + Upto(last, Room(room, |text|))
          == initial + Upto(text + last, room);
    }
  }

  /** Two ways to cut the same bytes leave the same file, counts and report. */
  lemma SameBytesSameLedger(limit: nat, initial: seq<byte>, one: seq<seq<byte>>, other: seq<seq<byte>>)
    requires Concat(one) == Concat(other)
    ensures TakeAll(limit, initial, one) == TakeAll(limit, initial, other)
  {
    CutsDoNotMatter(limit, initial, one);
    CutsDoNotMatter(limit, initial, other);
  }
}
