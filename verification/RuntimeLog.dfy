/** Finding the last error in the log of the container runtime. The agent reads the file backwards
    one byte offset at a time; the host-side sandboxer reads it forwards. A `Log` holds the message
    already trimmed, since both trim it alike.
 */
module RuntimeLog {
  import opened Basics
  import opened Wrappers

  type Bytes = seq<Byte>
  const NL: Byte := 10
  const CR: Byte := 13

  datatype Log = Log(level: string, msg: string)
  type Parser = Bytes -> Option<Log>

  /** White space at the end of a line does not matter to the parser. */
  ghost predicate IgnoresLineEnd(parse: Parser) {
    forall b: Bytes :: parse(b + [NL]) == parse(b) && parse(b + [CR]) == parse(b)
  }

  function FirstNl(b: Bytes): (k: nat)
    ensures k <= |b| && (k < |b| ==> b[k] == NL)
    ensures forall i :: 0 <= i < k ==> b[i] != NL
  {
    if b == [] || b[0] == NL then 0 else 1 + FirstNl(b[1..])
  }

  /** What reading up to a newline gives: the line with its newline, if it has one. */
  function ReadLine(b: Bytes): (r: Bytes)
    ensures r <= b && (b != [] ==> r != [])
    ensures |r| == 1 <==> |b| == 1 || (b != [] && b[0] == NL)
  {
    var k := FirstNl(b);
    if k < |b| then b[..k + 1] else b
  }

  function Lines(b: Bytes): seq<Bytes> {
    if b == [] then [] else [ReadLine(b)] + Lines(b[|ReadLine(b)|..])
  }

  /** A line without its ending. */
  function Chomp(line: Bytes): Bytes {
    if line == [] || line[|line| - 1] != NL then line
    else
      var l := line[..|line| - 1];
      if l != [] && l[|l| - 1] == CR then l[..|l| - 1] else l
  }

  lemma {:induction false} ChompKeepsMeaning(parse: Parser, line: Bytes)
    requires IgnoresLineEnd(parse)
    ensures parse(Chomp(line)) == parse(line)
  {
    if line != [] && line[|line| - 1] == NL {
      var l := line[..|line| - 1];
      assert line == l + [NL];
      if l != [] && l[|l| - 1] == CR { assert l == l[..|l| - 1] + [CR]; }
    }
  }

  predicate IsError(parse: Parser, line: Bytes) {
    parse(line).Some? && parse(line).value.level == "error"
  }

  /** The message of the last error line. */
  function LastError(parse: Parser, lines: seq<Bytes>): Option<string> {
    if lines == [] then None
    else match LastError(parse, lines[1..])
      case Some(m) => Some(m)
      case None => if IsError(parse, lines[0]) then Some(parse(lines[0]).value.msg) else None
  }

  function Text(m: Option<string>): string {
    if m.Some? then m.value else ""
  }

  /** The forward scan of `runtime_error`. */
  method RuntimeError(log: Bytes, parse: Parser) returns (msg: string)
    requires IgnoresLineEnd(parse)
    ensures msg == Text(LastError(parse, Lines(log)))
  {
    msg := "";
    var rest := log;
    ghost var done: seq<Bytes> := [];
    while rest != []
      invariant done + Lines(rest) == Lines(log)
      invariant msg == Text(LastError(parse, done))
      decreases |rest|
    {
      var raw := ReadLine(rest);
      var line := Chomp(raw);
      ChompKeepsMeaning(parse, raw);
      var l := parse(line);
      if l.Some? && l.value.level == "error" { msg := l.value.msg; }
      LastOfAppended(parse, done, raw);
      Cat(done, [raw], Lines(rest[|raw|..]));
      done := done + [raw];
      rest := rest[|raw|..];
    }
    assert done + [] == done;
  }

  lemma {:induction false} LastOfAppended(parse: Parser, lines: seq<Bytes>, line: Bytes)
    ensures LastError(parse, lines + [line]) ==
            if IsError(parse, line) then Some(parse(line).value.msg) else LastError(parse, lines)
  {
    if lines == [] {
      assert lines + [line] == [line] && [line][1..] == [];
    } else {
      assert (lines + [line])[1..] == lines[1..] + [line];
      LastOfAppended(parse, lines[1..], line);
    }
  }

  datatype Scan = Unparsable | Quiet | Error(msg: string)

  /** Reading lines from the last one back, up to an error or a line that does not parse. */
  function ScanBack(parse: Parser, lines: seq<Bytes>): Scan {
    if lines == [] then Quiet
    else match ScanBack(parse, lines[1..])
      case Quiet => Judge(parse(lines[0]))
      case stop => stop
  }

  function Judge(l: Option<Log>): Scan {
    match l
    case None => Unparsable
    case Some(l) => if l.level == "error" then Error(l.msg) else Quiet
  }

  function Answer(s: Scan): Option<string> {
    match s
    case Unparsable => None
    case Quiet => Some("")
    case Error(m) => Some(m)
  }

  /** The lines that begin after a newline at offset `k` or later. */
  function After(log: Bytes, k: nat): seq<Bytes>
    requires k <= |log|
  {
    var p := NlFrom(log, k);
    if p < |log| then Lines(log[p + 1..]) else []
  }

  /** Where the first newline at offset `k` or later is, or the end of the log. */
  function NlFrom(log: Bytes, k: nat): (p: nat)
    requires k <= |log|
    ensures k <= p <= |log|
  {
    k + FirstNl(log[k..])
  }

  lemma {:induction false} NlFromNext(log: Bytes, k: nat)
    requires k < |log|
    ensures NlFrom(log, k) == if log[k] == NL then k else NlFrom(log, k + 1)
  {
    var b := log[k..];
    assert b[0] == log[k] && b[1..] == log[k + 1..];
  }

  /** The lines the backward scan looks at: it never visits offset 0. */
  function Examined(log: Bytes): seq<Bytes> {
    if log == [] then [] else After(log, 1)
  }

  lemma {:induction false} AfterNewline(log: Bytes, k: nat)
    requires k < |log| && log[k] == NL
    ensures After(log, k) == Lines(log[k + 1..])
    ensures k + 1 < |log| ==> After(log, k) == [ReadLine(log[k + 1..])] + After(log, k + 1)
    ensures k + 1 == |log| ==> After(log, k) == []
  {
    NlFromNext(log, k);
    if k + 1 < |log| { LinesFrom(log, k + 1); }
  }

  /** The lines from offset `k` on are the first of them and those after its newline. */
  lemma {:induction false} LinesFrom(log: Bytes, k: nat)
    requires k < |log|
    ensures Lines(log[k..]) == [ReadLine(log[k..])] + After(log, k)
  {
    var b := log[k..];
    RestFrom(log, k);
    assert Lines(b) == [ReadLine(b)] + Lines(b[|ReadLine(b)|..]);
  }

  /** What is left after the first line from offset `k` on begins after its newline. */
  lemma {:induction false} RestFrom(log: Bytes, k: nat)
    requires k < |log|
    ensures var b, p := log[k..], NlFrom(log, k);
            b[|ReadLine(b)|..] == if p < |log| then log[p + 1..] else []
  {
    var b, n := log[k..], FirstNl(log[k..]);
    assert |ReadLine(b)| == if n < |b| then n + 1 else n;
  }

  lemma {:induction false} AfterOther(log: Bytes, k: nat)
    requires k < |log| && log[k] != NL
    ensures After(log, k) == After(log, k + 1)
  {
    NlFromNext(log, k);
  }

  /** What visiting offset `k` adds. */
  lemma {:induction false} Visit(parse: Parser, log: Bytes, k: nat)
    requires k < |log|
    ensures |ReadLine(log[k..])| == 1 && k + 1 < |log| ==>
              After(log, k) == [ReadLine(log[k + 1..])] + After(log, k + 1)
    ensures |ReadLine(log[k..])| != 1 || k + 1 == |log| ==> After(log, k) == After(log, k + 1)
  {
    assert log[k..][0] == log[k];
    if log[k] == NL { AfterNewline(log, k); } else { AfterOther(log, k); }
  }

  /** What stops the scan at some offset is its result. */
  lemma {:induction false} StopsThere(parse: Parser, log: Bytes, k: nat)
    requires 0 < k <= |log| && ScanBack(parse, After(log, k)) != Quiet
    ensures ScanBack(parse, After(log, 1)) == ScanBack(parse, After(log, k))
    decreases k
  {
    if k > 1 {
      Visit(parse, log, k - 1);
      assert ScanBack(parse, After(log, k - 1)) == ScanBack(parse, After(log, k));
      StopsThere(parse, log, k - 1);
    }
  }

  /** The backward scan of `get_last_runtime_error`; `None` is its error result. */
  method GetLastRuntimeError(log: Bytes, parse: Parser) returns (r: Option<string>)
    ensures r == Answer(ScanBack(parse, Examined(log)))
  {
    var previous: Option<Bytes> := None;
    var offset := |log|;
    assert After(log, |log|) == [];
    while offset > 1
      invariant 0 <= offset <= |log| && (log != [] ==> offset > 0)
      invariant previous == if offset == |log| then None else Some(ReadLine(log[offset..]))
      invariant ScanBack(parse, After(log, offset)) == Quiet
    {
      offset := offset - 1;
      var buffer := ReadLine(log[offset..]);
      Visit(parse, log, offset);
      if |buffer| == 1 && previous.Some? {
        assert ScanBack(parse, After(log, offset)) == Judge(parse(previous.value));
        match parse(previous.value)
        case None =>
          StopsThere(parse, log, offset);
          return None;
        case Some(l) =>
          if l.level == "error" {
            StopsThere(parse, log, offset);
            return Some(l.msg);
          }
      }
      previous := Some(buffer);
    }
    return Some("");
  }

  // When the two agree.

  /** The lines the backward scan never looks at. */
  function Skipped(log: Bytes): seq<Bytes> {
    if log == [] then [] else Lines(log[..SkippedTo(log)])
  }

  function SkippedTo(log: Bytes): (n: nat)
    requires log != []
    ensures 0 < n <= |log|
  {
    var p := 1 + FirstNl(log[1..]);
    if p < |log| then p + 1 else |log|
  }

  lemma {:induction false} LinesSplit(log: Bytes, n: nat)
    requires 0 < n <= |log| && log[n - 1] == NL
    ensures Lines(log) == Lines(log[..n]) + Lines(log[n..])
    decreases n
  {
    var head := log[..n];
    FirstIn(log, n);
    var r := ReadLine(log);
    assert log == head + log[n..];
    if |r| == n {
      assert head == r && head[n..] == [];
      assert Lines(head) == [r];
    } else {
      assert log[|r|..][..n - |r|] == head[|r|..] && log[|r|..][n - |r|..] == log[n..];
      LinesSplit(log[|r|..], n - |r|);
      Cat([r], Lines(head[|r|..]), Lines(log[n..]));
    }
  }

  lemma {:induction false} FirstIn(log: Bytes, n: nat)
    requires 0 < n <= |log| && log[n - 1] == NL
    ensures FirstNl(log) < n && FirstNl(log[..n]) == FirstNl(log)
    ensures ReadLine(log[..n]) == ReadLine(log) && |ReadLine(log)| <= n
  {
    var k, head := FirstNl(log), log[..n];
    assert head[k] == NL;
    assert head[..k + 1] == log[..k + 1];
  }

  lemma {:induction false} AllLines(log: Bytes)
    ensures Lines(log) == Skipped(log) + Examined(log)
  {
    if log != [] {
      var p := 1 + FirstNl(log[1..]);
      if p < |log| {
        assert log[p] == log[1..][p - 1];
        LinesSplit(log, p + 1);
      } else {
        assert log[..|log|] == log;
      }
    }
  }

  /** Every line that does not parse is followed by an error line. */
  predicate ParsesAfterErrors(parse: Parser, lines: seq<Bytes>) {
    forall i :: 0 <= i < |lines| && parse(lines[i]).None? ==> HasError(parse, lines[i..])
  }

  predicate HasError(parse: Parser, lines: seq<Bytes>) {
    exists j :: 0 <= j < |lines| && IsError(parse, lines[j])
  }

  lemma {:induction false} LastErrorExists(parse: Parser, lines: seq<Bytes>)
    ensures LastError(parse, lines).Some? <==> HasError(parse, lines)
  {
    if lines != [] {
      LastErrorExists(parse, lines[1..]);
      assert HasError(parse, lines[1..]) ==> HasError(parse, lines) by {
        if HasError(parse, lines[1..]) {
          var j :| 0 <= j < |lines[1..]| && IsError(parse, lines[1..][j]);
          assert IsError(parse, lines[j + 1]);
        }
      }
      assert HasError(parse, lines) && !IsError(parse, lines[0]) ==> HasError(parse, lines[1..]) by {
        if HasError(parse, lines) && !IsError(parse, lines[0]) {
          var j :| 0 <= j < |lines| && IsError(parse, lines[j]);
          assert lines[1..][j - 1] == lines[j];
        }
      }
    }
  }

  lemma {:induction false} TailParses(parse: Parser, lines: seq<Bytes>)
    requires lines != []
    ensures ParsesAfterErrors(parse, lines) <==>
            ParsesAfterErrors(parse, lines[1..]) && (parse(lines[0]).None? ==> HasError(parse, lines[1..]))
  {
    LastErrorExists(parse, lines);
    LastErrorExists(parse, lines[1..]);
    assert lines[0..] == lines;
    forall i | 0 <= i < |lines| - 1 ensures lines[1..][i] == lines[i + 1] && lines[1..][i..] == lines[i + 1..] {}
    if ParsesAfterErrors(parse, lines[1..]) && (parse(lines[0]).None? ==> HasError(parse, lines[1..])) {
      forall i | 0 <= i < |lines| && parse(lines[i]).None? ensures HasError(parse, lines[i..]) {
        if i > 0 { assert lines[1..][i - 1] == lines[i] && lines[1..][i - 1..] == lines[i..]; }
      }
    }
  }

  /** The backward scan finds the last error, unless a line after it does not parse. */
  lemma {:induction false} BackMeansLast(parse: Parser, lines: seq<Bytes>)
    ensures ScanBack(parse, lines) == Unparsable <==> !ParsesAfterErrors(parse, lines)
    ensures ParsesAfterErrors(parse, lines) ==>
              ScanBack(parse, lines) == match LastError(parse, lines) case Some(m) => Error(m) case None => Quiet
  {
    if lines != [] {
      BackMeansLast(parse, lines[1..]);
      TailParses(parse, lines);
      LastErrorExists(parse, lines[1..]);
    }
  }

  lemma {:induction false} LastOfTwo(parse: Parser, a: seq<Bytes>, b: seq<Bytes>)
    ensures LastError(parse, a + b) == if LastError(parse, b).Some? then LastError(parse, b) else LastError(parse, a)
  {
    if a == [] {
      assert a + b == b;
    } else {
      assert (a + b)[1..] == a[1..] + b;
      LastOfTwo(parse, a[1..], b);
    }
  }

  /** The backward scan gives the forward scan's message exactly when every examined line that does
      not parse is followed by an error, and no error message was skipped for want of a later one. */
  lemma {:induction false} ScansAgree(parse: Parser, log: Bytes)
    ensures Answer(ScanBack(parse, Examined(log))) == Some(Text(LastError(parse, Lines(log)))) <==>
            && ParsesAfterErrors(parse, Examined(log))
            && (HasError(parse, Examined(log)) || Text(LastError(parse, Skipped(log))) == "")
  {
    AllLines(log);
    LastOfTwo(parse, Skipped(log), Examined(log));
    BackMeansLast(parse, Examined(log));
    LastErrorExists(parse, Examined(log));
  }

  /** On a log of non-blank lines that all parse, the first line is the only one skipped, so the scans
      agree unless that line holds the only error. */
  lemma {:induction false} AgreeOnCleanLogs(parse: Parser, log: Bytes)
    requires log != [] ==> log[0] != NL
    requires forall i :: 0 <= i < |Lines(log)| ==> parse(Lines(log)[i]).Some?
    requires HasError(parse, Lines(log)) ==> HasError(parse, Lines(log)[1..])
    ensures Answer(ScanBack(parse, Examined(log))) == Some(Text(LastError(parse, Lines(log))))
  {
    AllLines(log);
    ScansAgree(parse, log);
    if log != [] {
      OnlyFirstSkipped(log);
      assert Lines(log)[1..] == Examined(log);
      forall i | 0 <= i < |Examined(log)| ensures parse(Examined(log)[i]).Some? {
        assert Examined(log)[i] == Lines(log)[i + 1];
      }
      LastErrorExists(parse, Examined(log));
      LastErrorExists(parse, Lines(log));
      LastOfTwo(parse, Skipped(log), Examined(log));
    }
  }

  lemma {:induction false} OnlyFirstSkipped(log: Bytes)
    requires log != [] && log[0] != NL
    ensures |Skipped(log)| == 1
  {
    var head := log[..SkippedTo(log)];
    assert FirstNl(log) == 1 + FirstNl(log[1..]);
    var p := FirstNl(log);
    if p < |log| {
      FirstIn(log, p + 1);
      assert ReadLine(head) == head && head[|head|..] == [];
    } else {
      assert head == log && head[|head|..] == [];
    }
    assert Lines(head) == [ReadLine(head)] + Lines(head[|head|..]);
  }

  /** A log whose only line is an error is where they differ. */
  lemma {:induction false} SingleErrorIsMissed(parse: Parser, line: Bytes)
    requires line != [] && NL !in line && IsError(parse, line) && parse(line).value.msg != ""
    ensures Answer(ScanBack(parse, Examined(line))) == Some("")
    ensures Text(LastError(parse, Lines(line))) == parse(line).value.msg
  {
    assert FirstNl(line) == |line| && FirstNl(line[1..]) == |line| - 1;
    assert line[|line|..] == [];
    assert Lines(line) == [line] && Lines(line)[1..] == [];
  }
}
