/** Monotonic ULIDs: base 32 digits, times, and the factory that keeps identifiers increasing. */
module Ulid {
  import opened Options

  const ENCODING_LEN: nat := 32
  const TIME_LEN: nat := 10
  const RANDOM_LEN: nat := 16
  const MAX_TIME_MS: nat := 0xFFFF_FFFF_FFFF
  const RUN_ID_PREFIX := "run_"

  // ---- the alphabet ------------------------------------------------------------------------

  const ENCODING := "0123456789ABCDEFGHJKMNPQRSTVWXYZ"

  function Shift(first: char, d: nat): char
    requires d < 32 && first <= 'Z'
  {
    (first as int + d) as char
  }

  /** Crockford's alphabet leaves out I, L, O and U. */
  function EncodeDigit(d: nat): char
    requires d < ENCODING_LEN
  {
    if d < 10 then Shift('0', d) else if d < 18 then Shift('A', d - 10) else if d < 20 then Shift('J', d - 18)
    else if d < 22 then Shift('M', d - 20) else if d < 27 then Shift('P', d - 22) else Shift('V', d - 27)
  }

  predicate InAlphabet(c: char) {
    || '0' <= c <= '9' || 'A' <= c <= 'H' || c == 'J' || c == 'K' || c == 'M' || c == 'N'
    || 'P' <= c <= 'T' || 'V' <= c <= 'Z'
  }

  function DecodeDigit(c: char): (d: nat)
    requires InAlphabet(c)
    ensures d < ENCODING_LEN && EncodeDigit(d) == c
  {
    var n := c as int;
    if c <= '9' then n - '0' as int else if c <= 'H' then n - 'A' as int + 10 else if c <= 'K' then n - 'J' as int + 18
    else if c <= 'N' then n - 'M' as int + 20 else if c <= 'T' then n - 'P' as int + 22 else n - 'V' as int + 27
  }

  /** The characters are those of the alphabet string, in ascending order, and decode to their digit. */
  lemma AlphabetOrder(d: nat, e: nat)
    requires d < ENCODING_LEN && e < ENCODING_LEN
    ensures InAlphabet(EncodeDigit(d)) && DecodeDigit(EncodeDigit(d)) == d
    ensures EncodeDigit(d) < EncodeDigit(e) <==> d < e
    ensures EncodeDigit(d) == EncodeDigit(e) <==> d == e
    ensures EncodeDigit(d) <= '7' <==> d < 8
    ensures |ENCODING| == ENCODING_LEN && ENCODING[d] == EncodeDigit(d)
  {
    AlphabetIsCrockfords(d);
    hide ENCODING;
  }

  lemma AlphabetIsCrockfords(d: nat)
    requires d < ENCODING_LEN
    ensures |ENCODING| == ENCODING_LEN && ENCODING[d] == EncodeDigit(d)
  {
  }

  // ---- digit strings -------------------------------------------------------------------------

  predicate AllDigits(digits: seq<nat>) {
    forall i :: 0 <= i < |digits| ==> digits[i] < ENCODING_LEN
  }

  function Value(digits: seq<nat>): nat {
    if digits == [] then 0 else Value(digits[..|digits| - 1]) * ENCODING_LEN + digits[|digits| - 1]
  }

  function Power(n: nat): nat {
    if n == 0 then 1 else ENCODING_LEN * Power(n - 1)
  }

  /** The last n base 32 digits of t. */
  function DigitsOf(t: nat, n: nat): (digits: seq<nat>)
    ensures |digits| == n && AllDigits(digits)
  {
    if n == 0 then [] else DigitsOf(t / ENCODING_LEN, n - 1) + [t % ENCODING_LEN]
  }

  function Encode(digits: seq<nat>): (s: string)
    requires AllDigits(digits)
    ensures |s| == |digits|
    ensures forall i :: 0 <= i < |s| ==> s[i] == EncodeDigit(digits[i])
  {
    seq(|digits|, i requires 0 <= i < |digits| => EncodeDigit(digits[i]))
  }

  lemma {:induction false} DigitsHaveValue(t: nat, n: nat)
    requires t < Power(n)
    ensures Value(DigitsOf(t, n)) == t
  {
    if n > 0 {
      DigitsHaveValue(t / ENCODING_LEN, n - 1);
      var digits := DigitsOf(t, n);
      assert digits[..n - 1] == DigitsOf(t / ENCODING_LEN, n - 1);
    }
  }

  lemma {:induction false} ValueIsUnique(a: seq<nat>, b: seq<nat>)
    requires AllDigits(a) && AllDigits(b) && |a| == |b|
    ensures Value(a) == Value(b) <==> a == b
  {
    if a != [] {
      var initA, initB := a[..|a| - 1], b[..|b| - 1];
      ValueIsUnique(initA, initB);
      LastDigitSplits(Value(initA), Value(initB), a[|a| - 1], b[|b| - 1]);
      hide AllDigits;
      assert a == initA + [a[|a| - 1]] && b == initB + [b[|b| - 1]];
    }
  }

  lemma LastDigitSplits(m: nat, n: nat, x: nat, y: nat)
    requires x < ENCODING_LEN && y < ENCODING_LEN
    ensures m * ENCODING_LEN + x == n * ENCODING_LEN + y <==> m == n && x == y
  {
  }

  /** String order, as the directory listing has it. */
  ghost predicate Less(a: string, b: string) {
    exists i :: LessAt(a, b, i)
  }

  predicate LessAt(a: string, b: string, i: int) {
    0 <= i <= |a| && i < |b| && (forall k :: 0 <= k < i ==> a[k] == b[k]) && (i == |a| || a[i] < b[i])
  }

  /** For digit strings of one length, string order is numeric order. */
  lemma {:induction false} OrderIsNumeric(a: seq<nat>, b: seq<nat>)
    requires AllDigits(a) && AllDigits(b) && |a| == |b|
    ensures Value(a) < Value(b) <==> Less(Encode(a), Encode(b))
  {
    if Value(a) < Value(b) {
      SmallerSortsFirst(a, b);
    } else {
      ValueIsUnique(a, b);
      if Value(b) < Value(a) {
        SmallerSortsFirst(b, a);
      }
      NotBoth(Encode(a), Encode(b));
    }
  }

  /** String order is irreflexive and asymmetric. */
  lemma NotBoth(a: string, b: string)
    ensures !(Less(a, b) && Less(b, a))
  {
    forall i, j ensures !(LessAt(a, b, i) && LessAt(b, a, j)) {
    }
  }

  lemma {:induction false} SmallerSortsFirst(a: seq<nat>, b: seq<nat>)
    requires AllDigits(a) && AllDigits(b) && |a| == |b| && Value(a) < Value(b)
    ensures Less(Encode(a), Encode(b))
  {
    hide EncodeDigit, InAlphabet;
    var initA, initB, last := a[..|a| - 1], b[..|b| - 1], |a| - 1;
    if Value(initA) < Value(initB) {
      SmallerSortsFirst(initA, initB);
      var i :| LessAt(Encode(initA), Encode(initB), i);
      assert forall k :: 0 <= k < last ==> Encode(a)[k] == Encode(initA)[k] && Encode(b)[k] == Encode(initB)[k];
      assert LessAt(Encode(a), Encode(b), i);
    } else {
      ValueIsUnique(initA, initB);
      assert initA == initB && a[last] < b[last];
      AlphabetOrder(a[last], b[last]);
      assert forall k :: 0 <= k < last ==> a[k] == initA[k] && b[k] == initB[k];
      assert LessAt(Encode(a), Encode(b), last);
    }
  }

  lemma LessInFront(a: string, b: string, x: string, y: string)
    requires |a| == |b| && Less(a, b)
    ensures Less(a + x, b + y)
  {
    var i :| LessAt(a, b, i);
    assert LessAt(a + x, b + y, i);
  }

  lemma LessBehind(p: string, a: string, b: string)
    requires Less(a, b)
    ensures Less(p + a, p + b)
  {
    var i :| LessAt(a, b, i);
    assert LessAt(p + a, p + b, |p| + i);
  }

  // ---- plus one ------------------------------------------------------------------------------

  /** The next digit string of the same length, if there is one. */
  function Next(digits: seq<nat>): Option<seq<nat>> {
    if digits == [] then None else
      var init, last := digits[..|digits| - 1], digits[|digits| - 1];
      if last < ENCODING_LEN - 1 then Some(init + [last + 1])
      else match Next(init)
        case None => None
        case Some(higher) => Some(higher + [0])
  }

  lemma {:induction false} NextIsPlusOne(digits: seq<nat>)
    requires AllDigits(digits)
    ensures match Next(digits)
            case Some(next) => |next| == |digits| && AllDigits(next) && Value(next) == Value(digits) + 1
            case None => Value(digits) + 1 == Power(|digits|)
  {
    if digits != [] {
      var init, last := digits[..|digits| - 1], digits[|digits| - 1];
      NextIsPlusOne(init);
      if last < ENCODING_LEN - 1 {
        assert (init + [last + 1])[..|init|] == init;
      } else if Next(init).Some? {
        assert (Next(init).value + [0])[..|init|] == Next(init).value;
      }
    }
  }

  function Zeros(n: nat): seq<nat> {
    seq(n, _ => 0)
  }

  /** Adds one in place; a string of highest digits is zeroed before the failure is reported. */
  method IncrementDigits(digits: array<nat>) returns (ok: bool)
    requires AllDigits(digits[..])
    modifies digits
    ensures ok == Next(old(digits[..])).Some?
    ensures digits[..] == if ok then Next(old(digits[..])).value else Zeros(digits.Length)
    ensures AllDigits(digits[..])
  {
    ghost var start := digits[..];
    var i := digits.Length - 1;
    CarryAll(start, 0);
    assert start[..digits.Length] == start;
    while i >= 0
      invariant -1 <= i < digits.Length
      invariant digits[..i + 1] == start[..i + 1]
      invariant forall k :: i < k < digits.Length ==> digits[k] == 0 && start[k] == ENCODING_LEN - 1
      decreases i
    {
      var digit := digits[i];
      assert digit == start[..i + 1][i];
      if digit < ENCODING_LEN - 1 {
        digits[i] := digit + 1;
        CarryAll(start, digits.Length - 1 - i);
        assert start[..i + 1][..i] == start[..i];
        assert digits[..] == start[..i] + [digit + 1] + Zeros(digits.Length - 1 - i);
        return true;
      }
      digits[i] := 0;
      i := i - 1;
      assert digits[..i + 1] == start[..i + 1];
    }
    CarryAll(start, digits.Length);
    assert digits[..] == Zeros(digits.Length);
    ok := false;
  }

  /** A trailing run of highest digits turns into zeros and carries into what is in front of it. */
  lemma {:induction false} CarryAll(digits: seq<nat>, run: nat)
    requires run <= |digits|
    requires forall k :: |digits| - run <= k < |digits| ==> digits[k] == ENCODING_LEN - 1
    ensures Next(digits) == match Next(digits[..|digits| - run])
                            case None => None
                            case Some(higher) => Some(higher + Zeros(run))
  {
    if run == 0 {
      assert digits[..|digits|] == digits;
      assert forall s: seq<nat> :: s + Zeros(0) == s;
    } else {
      var init := digits[..|digits| - 1];
      CarryAll(init, run - 1);
      assert init[..|init| - (run - 1)] == digits[..|digits| - run];
      assert Zeros(run - 1) + [0] == Zeros(run);
      if Next(init).Some? {
        var higher := Next(digits[..|digits| - run]).value;
        assert higher + Zeros(run - 1) + [0] == higher + Zeros(run);
      }
    }
  }

  // ---- times ---------------------------------------------------------------------------------

  /** None stands for the thrown violation. */
  method EncodeTime(timeMs: int) returns (r: Option<string>)
    ensures r == if 0 <= timeMs <= MAX_TIME_MS then Some(Encode(DigitsOf(timeMs, TIME_LEN))) else None
  {
    hide EncodeDigit;
    if timeMs < 0 || timeMs > MAX_TIME_MS {
      return None;
    }
    var remaining: nat := timeMs;
    var out := "";
    for i := 0 to TIME_LEN
      invariant |out| == i && |DigitsOf(remaining, TIME_LEN - i)| == TIME_LEN - i
      invariant Encode(DigitsOf(timeMs, TIME_LEN)) == Encode(DigitsOf(remaining, TIME_LEN - i)) + out
    {
      var digit := remaining % ENCODING_LEN;
      SplitLastDigit(remaining, TIME_LEN - i, out);
      out := [EncodeDigit(digit)] + out;
      remaining := (remaining - digit) / ENCODING_LEN;
    }
    assert Encode(DigitsOf(remaining, 0)) + out == out;
    r := Some(out);
  }

  lemma SplitLastDigit(t: nat, n: nat, out: string)
    requires n > 0
    ensures Encode(DigitsOf(t, n)) + out
         == Encode(DigitsOf(t / ENCODING_LEN, n - 1)) + ([EncodeDigit(t % ENCODING_LEN)] + out)
    ensures (t - t % ENCODING_LEN) / ENCODING_LEN == t / ENCODING_LEN
  {
    hide EncodeDigit;
    assert Encode(DigitsOf(t, n)) == Encode(DigitsOf(t / ENCODING_LEN, n - 1)) + [EncodeDigit(t % ENCODING_LEN)];
  }

  predicate IsUlid(s: string) {
    |s| == TIME_LEN + RANDOM_LEN && '0' <= s[0] <= '7' && forall i :: 0 <= i < |s| ==> InAlphabet(s[i])
  }

  function Decode(s: string): (digits: seq<nat>)
    requires forall i :: 0 <= i < |s| ==> InAlphabet(s[i])
    ensures |digits| == |s| && AllDigits(digits) && Encode(digits) == s
  {
    seq(|s|, i requires 0 <= i < |s| => DecodeDigit(s[i]))
  }

  function UlidPart(value: string): string {
    if RUN_ID_PREFIX <= value then value[|RUN_ID_PREFIX|..] else value
  }

  method UlidTimeMs(value: string) returns (r: Option<nat>)
    ensures r == if IsUlid(UlidPart(value)) then Some(Value(Decode(UlidPart(value))[..TIME_LEN])) else None
  {
    var ulidPart := if RUN_ID_PREFIX <= value then value[|RUN_ID_PREFIX|..] else value;
    if !IsUlid(ulidPart) {
      return None;
    }
    hide InAlphabet, EncodeDigit, DecodeDigit;
    var timeMs: nat := 0;
    ghost var digits := Decode(ulidPart)[..TIME_LEN];
    for i := 0 to TIME_LEN
      invariant timeMs == Value(digits[..i])
    {
      assert digits[..i + 1][..i] == digits[..i];
      timeMs := timeMs * ENCODING_LEN + DecodeDigit(ulidPart[i]);
    }
    assert digits[..TIME_LEN] == digits;
    r := Some(timeMs);
  }

  lemma TimePowers()
    ensures Power(TIME_LEN) == 4 * (MAX_TIME_MS + 1)
  {
    assert Power(5) == 0x200_0000;
    assert Power(10) == 0x4_0000_0000_0000;
  }

  /** Forty-eight bits fit ten digits, and the first of them is at most 7 exactly then. */
  lemma {:induction false} FirstDigitBoundsTime(digits: seq<nat>)
    requires |digits| == TIME_LEN && AllDigits(digits)
    ensures digits[0] <= 7 <==> Value(digits) <= MAX_TIME_MS
  {
    LeadingDigit(digits, TIME_LEN);
    assert Power(9) == 0x2000_0000_0000 by {
      assert Power(5) == 0x200_0000;
    }
    assert digits[..TIME_LEN] == digits;
  }

  lemma {:induction false} LeadingDigit(digits: seq<nat>, n: nat)
    requires 0 < n <= |digits| && AllDigits(digits)
    ensures digits[0] <= 7 <==> Value(digits[..n]) < 8 * Power(n - 1)
  {
    if n == 1 {
      assert digits[..1][..0] == [];
    } else {
      LeadingDigit(digits, n - 1);
      assert digits[..n][..n - 1] == digits[..n - 1];
    }
  }

  /** Decoding the time of an identifier gives back the time it was made with, with or without the prefix. */
  lemma TimeRoundTrip(timeMs: nat, random: seq<nat>)
    requires timeMs <= MAX_TIME_MS && |random| == RANDOM_LEN && AllDigits(random)
    ensures var id := Encode(DigitsOf(timeMs, TIME_LEN)) + Encode(random);
            && IsUlid(id) && Value(Decode(id)[..TIME_LEN]) == timeMs
            && UlidPart(id) == id && UlidPart(RUN_ID_PREFIX + id) == id
  {
    hide EncodeDigit, DecodeDigit, DigitsOf;
    var digits := DigitsOf(timeMs, TIME_LEN);
    var id := Encode(digits) + Encode(random);
    TimePowers();
    DigitsHaveValue(timeMs, TIME_LEN);
    FirstDigitBoundsTime(digits);
    AlphabetOrder(digits[0], digits[0]);
    forall i | 0 <= i < |id| ensures InAlphabet(id[i]) {
      AlphabetOrder((digits + random)[i], 0);
    }
    forall i | 0 <= i < TIME_LEN ensures Decode(id)[i] == digits[i] {
      AlphabetOrder(digits[i], Decode(id)[i]);
      assert Encode(Decode(id))[i] == id[i] == EncodeDigit(digits[i]);
    }
    assert Decode(id)[..TIME_LEN] == digits;
    assert id[0] <= '7' && RUN_ID_PREFIX[0] == 'r';
    assert (RUN_ID_PREFIX + id)[|RUN_ID_PREFIX|..] == id;
  }

  /** Every string that is accepted decodes to a time of 48 bits and is the encoding of what it decodes to. */
  lemma AcceptedIsEncoding(s: string)
    requires IsUlid(s)
    ensures var digits := Decode(s);
            && Value(digits[..TIME_LEN]) <= MAX_TIME_MS
            && s == Encode(DigitsOf(Value(digits[..TIME_LEN]), TIME_LEN)) + Encode(digits[TIME_LEN..])
  {
    var digits := Decode(s);
    var time := digits[..TIME_LEN];
    AlphabetOrder(digits[0], 0);
    assert Encode(digits)[0] == s[0];
    FirstDigitBoundsTime(time);
    TimePowers();
    DigitsHaveValue(Value(time), TIME_LEN);
    ValueIsUnique(time, DigitsOf(Value(time), TIME_LEN));
    hide EncodeDigit, InAlphabet;
    assert Encode(time) + Encode(digits[TIME_LEN..]) == Encode(digits);
  }

  // ---- the factory -----------------------------------------------------------------------------

  datatype State = State(lastTimeMs: int, lastDigits: seq<nat>)

  /** One call: what the clock said, and the random bytes it would draw. */
  datatype Call = Call(observed: int, bytes: seq<nat>)

  function RandomDigits(bytes: seq<nat>): (digits: seq<nat>)
    ensures |digits| == |bytes| && AllDigits(digits)
  {
    seq(|bytes|, i requires 0 <= i < |bytes| => bytes[i] % ENCODING_LEN)
  }

  predicate Exhausts(s: State, call: Call) {
    call.observed <= s.lastTimeMs && Next(s.lastDigits).None?
  }

  function Drawn(s: State, call: Call): State {
    if call.observed > s.lastTimeMs then State(call.observed, RandomDigits(call.bytes))
    else match Next(s.lastDigits)
      case Some(next) => s.(lastDigits := next)
      case None => s.(lastDigits := Zeros(|s.lastDigits|))
  }

  predicate WellFormed(s: State) {
    && AllDigits(s.lastDigits)
    && s.lastTimeMs >= -1 && |s.lastDigits| == if s.lastTimeMs == -1 then 0 else RANDOM_LEN
  }

  /** The identifier a call returns in the state it leaves. */
  function Id(s: State): string
    requires AllDigits(s.lastDigits) && 0 <= s.lastTimeMs
  {
    Encode(DigitsOf(s.lastTimeMs, TIME_LEN)) + Encode(s.lastDigits)
  }

  function Result(s: State, call: Call): Option<string>
    requires WellFormed(s)
  {
    var s' := Drawn(s, call);
    DrawnIsWellFormed(s, call);
    if Exhausts(s, call) || !(0 <= s'.lastTimeMs <= MAX_TIME_MS) then None else Some(Id(s'))
  }

  lemma DrawnIsWellFormed(s: State, call: Call)
    requires WellFormed(s)
    ensures AllDigits(Drawn(s, call).lastDigits)
    ensures |call.bytes| == RANDOM_LEN ==> WellFormed(Drawn(s, call))
  {
    NextIsPlusOne(s.lastDigits);
  }

  /** A later clock draws anew and an equal or earlier one counts on; a call fails at the highest value or time. */
  lemma CallSays(s: State, call: Call)
    requires WellFormed(s) && |call.bytes| == RANDOM_LEN
    ensures var s' := Drawn(s, call);
            && s'.lastTimeMs == (if call.observed > s.lastTimeMs then call.observed else s.lastTimeMs)
            && (call.observed > s.lastTimeMs ==>
                  forall i :: 0 <= i < RANDOM_LEN ==> s'.lastDigits[i] == call.bytes[i] % ENCODING_LEN)
            && var highest := Value(s.lastDigits) + 1 == Power(|s.lastDigits|);
               && (call.observed <= s.lastTimeMs ==>
                     Value(s'.lastDigits) == if highest then 0 else Value(s.lastDigits) + 1)
               && (Result(s, call).None? <==> (call.observed <= s.lastTimeMs && highest)
                                              || s'.lastTimeMs < 0 || s'.lastTimeMs > MAX_TIME_MS)
  {
    hide Id;
    NextIsPlusOne(s.lastDigits);
    ValueOfZeros(|s.lastDigits|);
    if Next(s.lastDigits).Some? {
      ValueBound(Next(s.lastDigits).value);
    }
  }

  lemma {:induction false} ValueBound(digits: seq<nat>)
    requires AllDigits(digits)
    ensures Value(digits) < Power(|digits|)
  {
    if digits != [] {
      ValueBound(digits[..|digits| - 1]);
    }
  }

  class UlidFactory {
    var lastTimeMs: int
    var lastDigits: array<nat>

    function Abs(): State
      reads this, lastDigits
    {
      State(lastTimeMs, lastDigits[..])
    }

    constructor ()
      ensures Abs() == State(-1, []) && fresh(lastDigits)
    {
      lastTimeMs := -1;
      lastDigits := new nat[0];
    }

    method Next(call: Call) returns (r: Option<string>)
      requires WellFormed(Abs()) && |call.bytes| == RANDOM_LEN
      modifies this, lastDigits
      ensures fresh(lastDigits) || lastDigits == old(lastDigits)
      ensures Abs() == Drawn(old(Abs()), call) && WellFormed(Abs())
      ensures r == Result(old(Abs()), call)
    {
      DrawnIsWellFormed(Abs(), call);
      var timeMs := if call.observed > lastTimeMs then call.observed else lastTimeMs;
      if timeMs == lastTimeMs {
        var ok := IncrementDigits(lastDigits);
        if !ok {
          return None;
        }
      } else {
        lastTimeMs := timeMs;
        lastDigits := new nat[RANDOM_LEN](i requires 0 <= i < RANDOM_LEN => call.bytes[i] % ENCODING_LEN);
        assert lastDigits[..] == RandomDigits(call.bytes);
      }
      var time := EncodeTime(timeMs);
      if time.None? {
        return None;
      }
      r := Some(time.value + Encode(lastDigits[..]));
    }
  }

  // ---- over any sequence of calls ----------------------------------------------------------------

  function After(calls: seq<Call>): State {
    if calls == [] then State(-1, []) else Drawn(After(calls[..|calls| - 1]), calls[|calls| - 1])
  }

  predicate Drawable(calls: seq<Call>) {
    forall i :: 0 <= i < |calls| ==> |calls[i].bytes| == RANDOM_LEN
  }

  lemma {:induction false} AlwaysWellFormed(calls: seq<Call>)
    requires Drawable(calls)
    ensures WellFormed(After(calls))
  {
    if calls != [] {
      AlwaysWellFormed(calls[..|calls| - 1]);
      DrawnIsWellFormed(After(calls[..|calls| - 1]), calls[|calls| - 1]);
    }
  }

  /** What the i-th call returned; None is a thrown violation. */
  function ResultOf(calls: seq<Call>, i: nat): Option<string>
    requires Drawable(calls) && i < |calls|
  {
    AlwaysWellFormed(calls[..i]);
    Result(After(calls[..i]), calls[i])
  }

  predicate Before(a: State, b: State) {
    a.lastTimeMs < b.lastTimeMs || (a.lastTimeMs == b.lastTimeMs && Value(a.lastDigits) < Value(b.lastDigits))
  }

  /** Unless the randomness is exhausted, every call moves the state up. */
  lemma CallsAscend(s: State, call: Call)
    requires WellFormed(s) && !Exhausts(s, call)
    ensures Before(s, Drawn(s, call))
  {
    NextIsPlusOne(s.lastDigits);
  }

  lemma {:induction false} StatesAscend(calls: seq<Call>, i: nat, j: nat)
    requires Drawable(calls) && i < j <= |calls|
    requires forall k :: i <= k < j ==> !Exhausts(After(calls[..k]), calls[k])
    ensures Before(After(calls[..i]), After(calls[..j]))
  {
    AlwaysWellFormed(calls[..j - 1]);
    CallsAscend(After(calls[..j - 1]), calls[j - 1]);
    assert calls[..j][..j - 1] == calls[..j - 1];
    if i + 1 < j {
      StatesAscend(calls, i, j - 1);
    }
  }

  lemma IdsFollowStates(a: State, b: State)
    requires WellFormed(a) && WellFormed(b) && 0 <= a.lastTimeMs <= MAX_TIME_MS && 0 <= b.lastTimeMs <= MAX_TIME_MS
    ensures Before(a, b) ==> Less(Id(a), Id(b))
    ensures a.lastTimeMs == b.lastTimeMs && Less(Encode(a.lastDigits), Encode(b.lastDigits)) ==> Less(Id(a), Id(b))
  {
    hide Less, Encode;
    TimePowers();
    DigitsHaveValue(a.lastTimeMs, TIME_LEN);
    DigitsHaveValue(b.lastTimeMs, TIME_LEN);
    var ta, tb := DigitsOf(a.lastTimeMs, TIME_LEN), DigitsOf(b.lastTimeMs, TIME_LEN);
    if a.lastTimeMs < b.lastTimeMs {
      OrderIsNumeric(ta, tb);
      LessInFront(Encode(ta), Encode(tb), Encode(a.lastDigits), Encode(b.lastDigits));
    } else if a.lastTimeMs == b.lastTimeMs {
      OrderIsNumeric(a.lastDigits, b.lastDigits);
      if Less(Encode(a.lastDigits), Encode(b.lastDigits)) {
        LessBehind(Encode(ta), Encode(a.lastDigits), Encode(b.lastDigits));
      }
    }
  }

  /**
   * Whatever the clock does, backwards included, an identifier handed out later sorts after every one
   * handed out before, as long as no call in between ran out of randomness.
   */
  lemma IdsStrictlyIncrease(calls: seq<Call>, i: nat, j: nat)
    requires Drawable(calls) && i < j < |calls|
    requires ResultOf(calls, i).Some? && ResultOf(calls, j).Some?
    requires forall k :: i < k < j ==> !Exhausts(After(calls[..k]), calls[k])
    ensures Less(ResultOf(calls, i).value, ResultOf(calls, j).value)
  {
    hide Less, Exhausts, Id, ResultOf, After, WellFormed, Before;
    ResultIsId(calls, i);
    ResultIsId(calls, j);
    StatesAscend(calls, i + 1, j + 1);
    IdsFollowStates(After(calls[..i + 1]), After(calls[..j + 1]));
  }

  lemma ResultIsId(calls: seq<Call>, i: nat)
    requires Drawable(calls) && i < |calls| && ResultOf(calls, i).Some?
    ensures var s := After(calls[..i + 1]);
            && WellFormed(s) && 0 <= s.lastTimeMs <= MAX_TIME_MS
            && !Exhausts(After(calls[..i]), calls[i]) && ResultOf(calls, i) == Some(Id(s))
  {
    hide Next, Id, Encode;
    assert calls[..i + 1][..i] == calls[..i];
    AlwaysWellFormed(calls[..i + 1]);
  }

  /** What an identifier decodes to are the digits it was made of. */
  lemma DecodedRandom(s: State)
    requires WellFormed(s) && 0 <= s.lastTimeMs
    ensures |Id(s)| == TIME_LEN + RANDOM_LEN && forall i :: 0 <= i < |Id(s)| ==> InAlphabet(Id(s)[i])
    ensures Decode(Id(s))[TIME_LEN..] == s.lastDigits
  {
    hide EncodeDigit, DecodeDigit, InAlphabet;
    var digits, id := DigitsOf(s.lastTimeMs, TIME_LEN) + s.lastDigits, Id(s);
    assert forall i :: 0 <= i < |id| ==> id[i] == EncodeDigit(digits[i]);
    forall i | 0 <= i < |id| ensures InAlphabet(id[i]) {
      AlphabetOrder(digits[i], 0);
    }
    forall i | 0 <= i < RANDOM_LEN ensures Decode(id)[TIME_LEN + i] == s.lastDigits[i] {
      assert Encode(Decode(id))[TIME_LEN + i] == id[TIME_LEN + i];
      AlphabetOrder(s.lastDigits[i], Decode(id)[TIME_LEN + i]);
    }
  }

  /** The sixteen characters behind the time, as digits. */
  function RandomPart(id: string): (digits: seq<nat>)
    requires IsUlid(id)
    ensures |digits| == RANDOM_LEN && AllDigits(digits)
  {
    Decode(id)[TIME_LEN..]
  }

  /**
   * When the clock has moved on, the random part of an identifier is the bytes that were drawn, mod 32. When
   * it has not, it is one more than that of the identifier before.
   */
  lemma IdsCarryTheDraw(calls: seq<Call>, i: nat)
    requires Drawable(calls) && i < |calls| && ResultOf(calls, i).Some?
    ensures IsUlid(ResultOf(calls, i).value)
    ensures calls[i].observed > Latest(calls[..i]) ==>
              forall k :: 0 <= k < RANDOM_LEN ==>
                RandomPart(ResultOf(calls, i).value)[k] == calls[i].bytes[k] % ENCODING_LEN
    ensures calls[i].observed <= Latest(calls[..i]) && i > 0 && ResultOf(calls, i - 1).Some? ==>
              && IsUlid(ResultOf(calls, i - 1).value)
              && Value(RandomPart(ResultOf(calls, i).value)) == Value(RandomPart(ResultOf(calls, i - 1).value)) + 1
  {
    hide Id, IsUlid, InAlphabet, DecodeDigit, EncodeDigit, ResultOf, After, WellFormed;
    IdIsOfState(calls, i);
    StateIsDrawn(calls, i);
    LatestIsKept(calls[..i]);
    if i > 0 && ResultOf(calls, i - 1).Some? {
      IdIsOfState(calls, i - 1);
    }
    NextIsPlusOne(After(calls[..i]).lastDigits);
  }

  lemma StateIsDrawn(calls: seq<Call>, i: nat)
    requires Drawable(calls) && i < |calls|
    ensures WellFormed(After(calls[..i])) && After(calls[..i + 1]) == Drawn(After(calls[..i]), calls[i])
    ensures AllDigits(After(calls[..i]).lastDigits)
    ensures ResultOf(calls, i).Some? ==> !Exhausts(After(calls[..i]), calls[i])
  {
    hide Next, Id;
    AlwaysWellFormed(calls[..i]);
    assert calls[..i + 1][..i] == calls[..i];
  }

  lemma IdIsOfState(calls: seq<Call>, i: nat)
    requires Drawable(calls) && i < |calls| && ResultOf(calls, i).Some?
    ensures IsUlid(ResultOf(calls, i).value)
    ensures RandomPart(ResultOf(calls, i).value) == After(calls[..i + 1]).lastDigits
  {
    hide Id, IsUlid, InAlphabet, DecodeDigit, EncodeDigit, ResultOf, After;
    ResultIsId(calls, i);
    IdsCarryLatestTime(calls, i);
    DecodedRandom(After(calls[..i + 1]));
  }

  function Latest(calls: seq<Call>): int {
    if calls == [] then -1 else
      var before, last := Latest(calls[..|calls| - 1]), calls[|calls| - 1].observed;
      if last > before then last else before
  }

  /** Every identifier is a ULID, and its time is the latest the clock has ever said. */
  lemma IdsCarryLatestTime(calls: seq<Call>, i: nat)
    requires Drawable(calls) && i < |calls| && ResultOf(calls, i).Some?
    ensures var id := ResultOf(calls, i).value;
            IsUlid(id) && Value(Decode(id)[..TIME_LEN]) == Latest(calls[..i + 1])
  {
    ResultIsId(calls, i);
    LatestIsKept(calls[..i + 1]);
    var s := After(calls[..i + 1]);
    TimeRoundTrip(s.lastTimeMs, s.lastDigits);
  }

  lemma {:induction false} LatestIsKept(calls: seq<Call>)
    ensures After(calls).lastTimeMs == Latest(calls)
  {
    if calls != [] {
      LatestIsKept(calls[..|calls| - 1]);
    }
  }

  /**
   * After a call that ran out, the next identifier sorts after the last one handed out if and only if
   * the clock has moved past that millisecond: the failed call left zeros behind.
   */
  lemma AfterExhaustion(s: State, failed: Call, call: Call)
    requires WellFormed(s) && 0 <= s.lastTimeMs && Exhausts(s, failed) && |call.bytes| == RANDOM_LEN
    requires 0 <= call.observed <= MAX_TIME_MS && s.lastTimeMs <= MAX_TIME_MS
    ensures var cleared := Drawn(s, failed);
            && WellFormed(cleared) && Result(s, failed) == None && Result(cleared, call).Some?
            && (Less(Id(s), Result(cleared, call).value) <==> call.observed > s.lastTimeMs)
  {
    hide Less, Encode, Id;
    var cleared := Drawn(s, failed);
    var s' := Drawn(cleared, call);
    NextIsPlusOne(s.lastDigits);
    ValueOfZeros(RANDOM_LEN);
    NextIsPlusOne(cleared.lastDigits);
    BigPower();
    DrawnIsWellFormed(cleared, call);
    IdsFollowStates(s, s');
    IdsFollowStates(s', s);
    if call.observed <= s.lastTimeMs {
      NotBoth(Id(s), Id(s'));
    }
  }

  lemma {:induction false} ValueOfZeros(n: nat)
    ensures AllDigits(Zeros(n)) && Value(Zeros(n)) == 0
  {
    if n > 0 {
      ValueOfZeros(n - 1);
      assert Zeros(n)[..n - 1] == Zeros(n - 1);
    }
  }

  lemma BigPower()
    ensures Power(RANDOM_LEN) > 2
  {
    assert Power(1) == 32 && Power(4) > Power(1) && Power(8) > Power(4) && Power(12) > Power(8);
  }
}
