/** The exit-code parser of the command line tool: it strips the exit marker from the end of a
    command's output, which arrives in arbitrary chunks.
 */
module ExitCodeParser {
  import opened Wrappers

  const COLON: Byte := 58
  const CR: Byte := 13
  const LF: Byte := 10

  predicate IsDigit(b: Byte) { 48 <= b <= 57 }

  predicate AllDigits(s: seq<Byte>) {
    forall i :: 0 <= i < |s| ==> IsDigit(s[i])
  }

  function Value(digits: seq<Byte>): int {
    if digits == [] then 0 else 10 * Value(digits[..|digits| - 1]) + (digits[|digits| - 1] as int - 48)
  }

  const I32_MAX := 0x7fff_ffff

  /** Parsing a decimal `i32`; five digits never overflow it. */
  function ParseI32(digits: seq<Byte>): Option<int>
  {
    if Value(digits) <= I32_MAX then Some(Value(digits)) else None
  }

  function Pow10(n: nat): nat {
    if n == 0 then 1 else 10 * Pow10(n - 1)
  }

  lemma {:induction false} ValueBelow(digits: seq<Byte>)
    requires AllDigits(digits)
    ensures 0 <= Value(digits) < Pow10(|digits|)
  {
    if digits != [] { ValueBelow(digits[..|digits| - 1]); }
  }

  lemma {:induction false} ValueBounds(digits: seq<Byte>)
    requires AllDigits(digits) && |digits| <= 5
    ensures 0 <= Value(digits) <= 99999
  {
    ValueBelow(digits);
    assert Pow10(1) == 10 && Pow10(2) == 100 && Pow10(3) == 1000 && Pow10(4) == 10000 && Pow10(5) == 100000;
  }

  predicate MatchesAt(hay: seq<Byte>, needle: seq<Byte>, i: nat) {
    i + |needle| <= |hay| && hay[i..i + |needle|] == needle
  }

  /** The last match of `needle` that starts before `n`. */
  function RfindBelow(hay: seq<Byte>, needle: seq<Byte>, n: nat): (r: Option<nat>)
    ensures r.Some? ==> r.value < n && MatchesAt(hay, needle, r.value)
    ensures forall j :: (if r.Some? then r.value < j < n else 0 <= j < n) ==> !MatchesAt(hay, needle, j)
  {
    if n == 0 then None
    else if MatchesAt(hay, needle, n - 1) then Some(n - 1)
    else RfindBelow(hay, needle, n - 1)
  }

  /** `rfind_subslice`: the last window equal to `needle`; an empty needle is found at the end. */
  function Rfind(hay: seq<Byte>, needle: seq<Byte>): (r: Option<nat>)
    ensures r.Some? ==> MatchesAt(hay, needle, r.value)
    ensures forall j :: (if r.Some? then j > r.value else j >= 0) ==> !MatchesAt(hay, needle, j)
  {
    if needle == [] then Some(|hay|) else RfindBelow(hay, needle, |hay|)
  }

  function StripEol(s: seq<Byte>): seq<Byte> {
    if |s| >= 2 && s[|s| - 2] == CR && s[|s| - 1] == LF then s[..|s| - 2]
    else if |s| >= 1 && s[|s| - 1] == LF then s[..|s| - 1]
    else s
  }

  datatype FinishResult = FinishResult(output: seq<Byte>, exitCode: Option<int>)

  /** `finish` on what is left in the tail. */
  function FinishTail(tail: seq<Byte>, prefix: seq<Byte>): FinishResult {
    match Rfind(tail, prefix)
    case None => FinishResult(tail, None)
    case Some(start) =>
      var digits := StripEol(tail[start + |prefix|..]);
      if digits != [] && AllDigits(digits) then FinishResult(tail[..start], ParseI32(digits))
      else FinishResult(tail, None)
  }

  function MaxMarkerLen(prefix: seq<Byte>): nat { |prefix| + 5 }

  /** The bytes kept back from a stream: its last `max_marker_len`, or all of it. */
  function Tail(stream: seq<Byte>, prefix: seq<Byte>): seq<Byte> {
    if |stream| <= MaxMarkerLen(prefix) then stream else stream[|stream| - MaxMarkerLen(prefix)..]
  }

  class Parser {
    const prefix: seq<Byte>
    var tail: seq<Byte>
    ghost var stream: seq<Byte>   // everything pushed so far
    ghost var emitted: seq<Byte>  // everything returned by `Push` so far

    ghost predicate Valid()
      reads this
    {
      tail == Tail(stream, prefix) && emitted + tail == stream
    }

    constructor (marker: seq<Byte>, token: seq<Byte>)
      ensures Valid() && stream == [] && emitted == []
      ensures prefix == marker + [COLON] + token + [COLON]
    {
      prefix := marker + [COLON] + token + [COLON];
      tail, stream, emitted := [], [], [];
    }

    method Push(chunk: seq<Byte>) returns (out: seq<Byte>)
      requires Valid()
      modifies this
      ensures Valid() && stream == old(stream) + chunk && emitted == old(emitted) + out
      ensures |tail| <= MaxMarkerLen(prefix)
    {
      tail := tail + chunk;
      stream := stream + chunk;
      if |tail| <= MaxMarkerLen(prefix) {
        out := [];
        return;
      }
      var splitAt := |tail| - MaxMarkerLen(prefix);
      ghost var before := emitted;
      assert before + tail == stream;
      out := tail[..splitAt];
      tail := tail[splitAt..];
      emitted := emitted + out;
      assert emitted + tail == stream;
      LastBytes(emitted, tail);
    }

    method Finish() returns (r: FinishResult)
      requires Valid()
      ensures r == FinishTail(tail, prefix)
      ensures (emitted + r.output, r.exitCode) == Parsed(stream, prefix)
    {
      r := FinishTail(tail, prefix);
    }
  }

  lemma {:induction false} LastBytes(a: seq<Byte>, b: seq<Byte>)
    ensures (a + b)[|a + b| - |b|..] == b
  {}

  /** What the tool shows and reports for a whole output stream. */
  function Parsed(stream: seq<Byte>, prefix: seq<Byte>): (seq<Byte>, Option<int>) {
    var tail := Tail(stream, prefix);
    var r := FinishTail(tail, prefix);
    (stream[..|stream| - |tail|] + r.output, r.exitCode)
  }

  predicate IsEol(s: seq<Byte>) {
    s == [] || s == [LF] || s == [CR, LF]
  }

  /** The stream ends with the marker of a command that exited with `Value(digits)`. */
  predicate Marked(stream: seq<Byte>, prefix: seq<Byte>, payload: seq<Byte>, digits: seq<Byte>, eol: seq<Byte>) {
    && stream == payload + prefix + digits + eol
    && digits != [] && AllDigits(digits) && IsEol(eol) && |digits| + |eol| <= 5
  }

  lemma {:induction false} StripEolOf(digits: seq<Byte>, eol: seq<Byte>)
    requires AllDigits(digits) && IsEol(eol) && digits != []
    ensures StripEol(digits + eol) == digits
  {
    assert IsDigit(digits[|digits| - 1]);
    if |digits| >= 2 { assert IsDigit(digits[|digits| - 2]); }
  }

  lemma {:induction false} TailHoldsMarker(payload: seq<Byte>, prefix: seq<Byte>, rest: seq<Byte>)
    requires |rest| <= 5
    ensures var stream := payload + prefix + rest;
            var tail := Tail(stream, prefix);
            var p := |tail| - |prefix| - |rest|;
            && p >= 0 && MatchesAt(tail, prefix, p) && tail[p + |prefix|..] == rest
            && stream[..|stream| - |tail|] + tail[..p] == payload
  {
    var stream := payload + prefix + rest;
    var tail := Tail(stream, prefix);
    var cut := |stream| - |tail|;
    assert tail == stream[cut..];
    var p := |tail| - |prefix| - |rest|;
    assert p + cut == |payload|;
    assert tail[p..p + |prefix|] == stream[|payload|..|payload| + |prefix|] == prefix;
    assert tail[..p] == payload[cut..];
  }

  /** Nothing after the colon of the real marker can be the end of another one. */
  lemma {:induction false} MarkerIsLast(tail: seq<Byte>, prefix: seq<Byte>, p: nat)
    requires prefix != [] && prefix[|prefix| - 1] == COLON
    requires MatchesAt(tail, prefix, p) && COLON !in tail[p + |prefix|..]
    ensures Rfind(tail, prefix) == Some(p)
  {
    forall j | j > p ensures !MatchesAt(tail, prefix, j) {
      if j + |prefix| <= |tail| {
        var k := j + |prefix| - 1;
        assert tail[p + |prefix|..][k - p - |prefix|] != COLON;
        assert tail[j..j + |prefix|][|prefix| - 1] == tail[k];
      }
    }
  }

  lemma {:induction false} FinishFinds(tail: seq<Byte>, prefix: seq<Byte>, p: nat, digits: seq<Byte>, eol: seq<Byte>)
    requires prefix != [] && prefix[|prefix| - 1] == COLON
    requires digits != [] && AllDigits(digits) && IsEol(eol) && |digits| + |eol| <= 5
    requires MatchesAt(tail, prefix, p) && tail[p + |prefix|..] == digits + eol
    ensures FinishTail(tail, prefix) == FinishResult(tail[..p], Some(Value(digits)))
  {
    assert COLON !in digits + eol;
    MarkerIsLast(tail, prefix, p);
    StripEolOf(digits, eol);
    ValueBounds(digits);
  }

  lemma {:induction false} Assoc(a: seq<Byte>, b: seq<Byte>, c: seq<Byte>, d: seq<Byte>, e: seq<Byte>)
    ensures a + (b + c + d + e) == (a + b) + c + d + e
    ensures b + c + d + e == b + c + (d + e)
  {}

  /** For every payload, token, exit code of at most five bytes with its line ending, and every
      chunking: the output is the payload and the code is reported, markers in the payload or not. */
  lemma {:induction false} MarkerIsStripped(stream: seq<Byte>, prefix: seq<Byte>, payload: seq<Byte>, digits: seq<Byte>, eol: seq<Byte>)
    requires prefix != [] && prefix[|prefix| - 1] == COLON
    requires Marked(stream, prefix, payload, digits, eol)
    ensures Parsed(stream, prefix) == (payload, Some(Value(digits)))
  {
    var rest := digits + eol;
    assert stream == payload + prefix + rest by { Assoc([], payload, prefix, digits, eol); }
    TailHoldsMarker(payload, prefix, rest);
    FinishHere(stream, prefix, payload, rest, digits, eol);
  }

  lemma {:induction false} FinishHere(stream: seq<Byte>, prefix: seq<Byte>, payload: seq<Byte>, rest: seq<Byte>, digits: seq<Byte>, eol: seq<Byte>)
    requires prefix != [] && prefix[|prefix| - 1] == COLON
    requires digits != [] && AllDigits(digits) && IsEol(eol) && |digits| + |eol| <= 5 && rest == digits + eol
    requires var tail := Tail(stream, prefix);
             var p := |tail| - |prefix| - |rest|;
             && p >= 0 && MatchesAt(tail, prefix, p) && tail[p + |prefix|..] == rest
             && stream[..|stream| - |tail|] + tail[..p] == payload
    ensures Parsed(stream, prefix) == (payload, Some(Value(digits)))
  {
    var tail := Tail(stream, prefix);
    var p := |tail| - |prefix| - |rest|;
    FinishFinds(tail, prefix, p, digits, eol);
    var r := FinishTail(tail, prefix);
    assert r.output == tail[..p] && r.exitCode == Some(Value(digits));
  }

  lemma {:induction false} SplitAt(tail: seq<Byte>, prefix: seq<Byte>, p: nat)
    requires MatchesAt(tail, prefix, p)
    ensures tail == tail[..p] + prefix + StripEol(tail[p + |prefix|..]) + EolOf(tail[p + |prefix|..])
    ensures IsEol(EolOf(tail[p + |prefix|..]))
    ensures |StripEol(tail[p + |prefix|..])| + |EolOf(tail[p + |prefix|..])| == |tail| - p - |prefix|
  {
    var suffix := tail[p + |prefix|..];
    assert suffix == StripEol(suffix) + EolOf(suffix);
    assert tail == tail[..p] + prefix + suffix;
    Assoc([], tail[..p], prefix, StripEol(suffix), EolOf(suffix));
  }

  function EolOf(s: seq<Byte>): seq<Byte> {
    s[|StripEol(s)|..]
  }

  lemma {:induction false} MarkedAt(tail: seq<Byte>, prefix: seq<Byte>, p: nat)
    requires |tail| <= MaxMarkerLen(prefix) && MatchesAt(tail, prefix, p)
    requires var digits := StripEol(tail[p + |prefix|..]); digits != [] && AllDigits(digits)
    ensures Marked(tail, prefix, tail[..p], StripEol(tail[p + |prefix|..]), EolOf(tail[p + |prefix|..]))
  {
    SplitAt(tail, prefix, p);
  }

  function SuffixOf(tail: seq<Byte>, prefix: seq<Byte>): seq<Byte>
    requires Rfind(tail, prefix).Some?
  {
    tail[Rfind(tail, prefix).value + |prefix|..]
  }

  lemma {:induction false} FinishWithCode(tail: seq<Byte>, prefix: seq<Byte>)
    requires |tail| <= MaxMarkerLen(prefix) && FinishTail(tail, prefix).exitCode.Some?
    ensures Rfind(tail, prefix).Some?
    ensures Marked(tail, prefix, FinishTail(tail, prefix).output, StripEol(SuffixOf(tail, prefix)), EolOf(SuffixOf(tail, prefix)))
    ensures FinishTail(tail, prefix).exitCode == Some(Value(StripEol(SuffixOf(tail, prefix))))
  {
    MarkedAt(tail, prefix, Rfind(tail, prefix).value);
  }

  lemma {:induction false} FinishWithout(tail: seq<Byte>, prefix: seq<Byte>)
    requires |tail| <= MaxMarkerLen(prefix) && FinishTail(tail, prefix).exitCode.None?
    ensures FinishTail(tail, prefix).output == tail
  {
    if Rfind(tail, prefix).Some? {
      var digits := StripEol(SuffixOf(tail, prefix));
      if AllDigits(digits) { ValueBounds(digits); }
    }
  }

  /** Conversely a code is only reported off a marker at the very end, and without one nothing is
      withheld: for every stream whatsoever. */
  lemma {:induction false} CodeMeansMarker(stream: seq<Byte>, prefix: seq<Byte>) returns (digits: seq<Byte>, eol: seq<Byte>)
    ensures var (output, code) := Parsed(stream, prefix);
            if code.Some? then Marked(stream, prefix, output, digits, eol) && code == Some(Value(digits))
            else output == stream
  {
    digits, eol := [], [];
    var tail := Tail(stream, prefix);
    var head := stream[..|stream| - |tail|];
    assert stream == head + tail;
    if FinishTail(tail, prefix).exitCode.Some? {
      FinishWithCode(tail, prefix);
      digits, eol := StripEol(SuffixOf(tail, prefix)), EolOf(SuffixOf(tail, prefix));
      Assoc(head, FinishTail(tail, prefix).output, prefix, digits, eol);
    } else {
      FinishWithout(tail, prefix);
    }
  }
}
