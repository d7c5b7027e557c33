/** Length-prefixed messages: four bytes of big-endian length, then the body. The writers are the
    workload's and the agent's; the reader is the workload's, which takes whatever pieces the
    socket hands it. A body is the encoded text of one message.
 */
module Framing {
  import opened Basics
  import opened Wrappers

  const MAX_FRAME_LEN := 4 * 1024 * 1024
  const U32 := 0x1_0000_0000

  type Bytes = seq<Byte>

  function Be32(n: nat): (r: Bytes)
    requires n < U32
    ensures |r| == 4
  {
    [n / 0x100_0000, n / 0x1_0000 % 0x100, n / 0x100 % 0x100, n % 0x100]
  }

  function FromBe32(b: Bytes): (n: nat)
    requires |b| == 4
    ensures n < U32
  {
    0x100_0000 * (b[0] as int) + 0x1_0000 * (b[1] as int) + 0x100 * (b[2] as int) + b[3] as int
  }

  lemma {:induction false} Be32RoundTrip(n: nat)
    requires n < U32
    ensures FromBe32(Be32(n)) == n
  {
    Digits(n, n / 0x100, n / 0x1_0000);
  }

  /** What a write puts on the wire. The agent cuts the length to 32 bits; the workload's writer
      does the same below that size and raises above it. */
  function Frame(body: Bytes): Bytes {
    Be32(|body| % U32) + body
  }

  function Wire(frames: seq<Bytes>): Bytes {
    if frames == [] then [] else Frame(frames[0]) + Wire(frames[1..])
  }

  predicate Fitting(frames: seq<Bytes>) {
    forall i :: 0 <= i < |frames| ==> |frames[i]| <= MAX_FRAME_LEN
  }

  datatype Read = Message(body: Bytes) | Closed | TooLarge | MidFrame

  /** The reader's meaning: what one read returns from the bytes still to come. */
  function Next(s: Bytes): Read {
    if |s| < 4 then Closed
    else if FromBe32(s[..4]) > MAX_FRAME_LEN then TooLarge
    else if |s| - 4 < FromBe32(s[..4]) then MidFrame
    else Message(s[4..4 + FromBe32(s[..4])])
  }

  /** One end of a connection whose peer sends `rest` and closes. */
  class Conn {
    var rest: Bytes
    var sent: Bytes

    constructor (s: Bytes)
      ensures rest == s && sent == []
    {
      rest, sent := s, [];
    }

    /** Any non-empty piece of what is still to come, or nothing at the end. */
    method Recv(n: nat) returns (chunk: Bytes)
      requires n > 0
      modifies this`rest
      ensures chunk + rest == old(rest) && |chunk| <= n
      ensures chunk == [] <==> old(rest) == []
    {
      if rest == [] { return []; }
      var k :| 0 < k <= n && k <= |rest|;
      chunk, rest := rest[..k], rest[k..];
    }

    /** `_recv_exact`. */
    method RecvExact(n: nat) returns (r: Option<Bytes>)
      modifies this`rest
      ensures n <= |old(rest)| ==> r == Some(old(rest)[..n]) && rest == old(rest)[n..]
      ensures n > |old(rest)| ==> r == None && rest == []
    {
      var buf: Bytes := [];
      while |buf| < n
        invariant |buf| <= n && buf + rest == old(rest)
      {
        var chunk := Recv(n - |buf|);
        if chunk == [] { return None; }
        buf := buf + chunk;
      }
      return Some(buf);
    }

    /** `_read_msg`. */
    method ReadMsg() returns (r: Read)
      modifies this`rest
      ensures r == Next(old(rest))
      ensures r.Message? ==> old(rest) == Frame(r.body) + rest && |r.body| <= MAX_FRAME_LEN
      ensures !r.Message? && !r.TooLarge? ==> rest == []
    {
      ghost var s := rest;
      var header := RecvExact(4);
      if header.None? { return Closed; }
      var length := FromBe32(header.value);
      if length > MAX_FRAME_LEN { return TooLarge; }
      var body := RecvExact(length);
      if body.None? { return MidFrame; }
      FrameAtHead(s);
      return Message(body.value);
    }

    /** `_write_msg` and `write_framed_message`. */
    method WriteMsg(body: Bytes)
      modifies this`sent
      ensures sent == old(sent) + Frame(body)
    {
      sent := sent + (Be32(|body| % U32) + body);
    }

    method WriteAll(frames: seq<Bytes>)
      modifies this`sent
      ensures sent == old(sent) + Wire(frames)
    {
      var i := 0;
      while i < |frames|
        invariant 0 <= i <= |frames|
        invariant sent + Wire(frames[i..]) == old(sent) + Wire(frames)
      {
        Cat(sent, Frame(frames[i]), Wire(frames[i + 1..]));
        assert frames[i..][1..] == frames[i + 1..];
        WriteMsg(frames[i]);
        i := i + 1;
      }
    }

    /** Reads until a read returns no message. */
    method ReadAll() returns (frames: seq<Bytes>, last: Read)
      modifies this`rest
      ensures (frames, last) == Received(old(rest))
    {
      frames := [];
      ghost var s := rest;
      assert [] + Received(rest).0 == Received(rest).0;
      while true
        invariant Received(s) == (frames + Received(rest).0, Received(rest).1)
        decreases |rest|
      {
        ghost var before := rest;
        var r := ReadMsg();
        if !r.Message? {
          last := r;
          assert frames + [] == frames;
          assert Received(before) == ([], r);
          return;
        }
        FrameThenRest(r.body, rest);
        Cat(frames, [r.body], Received(rest).0);
        frames := frames + [r.body];
      }
    }
  }

  /** Every message read from `s`, in order, and why reading stopped. */
  function Received(s: Bytes): (seq<Bytes>, Read)
    decreases |s|
  {
    match Next(s)
    case Message(body) =>
      var r := Received(s[4 + |body|..]);
      ([body] + r.0, r.1)
    case stop => ([], stop)
  }

  lemma {:induction false} FromBe32RoundTrip(b: Bytes)
    requires |b| == 4
    ensures Be32(FromBe32(b)) == b
  {
    UniqueDigits(b[0], b[1], b[2], b[3], FromBe32(b));
  }

  lemma {:induction false} UniqueDigits(b0: int, b1: int, b2: int, b3: int, n: int)
    requires 0 <= b0 < 0x100 && 0 <= b1 < 0x100 && 0 <= b2 < 0x100 && 0 <= b3 < 0x100
    requires n == 0x100_0000 * b0 + 0x1_0000 * b1 + 0x100 * b2 + b3
    ensures n / 0x100_0000 == b0 && n / 0x1_0000 % 0x100 == b1 && n / 0x100 % 0x100 == b2 && n % 0x100 == b3
  {
    assert n / 0x100 == 0x1_0000 * b0 + 0x100 * b1 + b2;
    assert n / 0x1_0000 == 0x100 * b0 + b1;
  }

  lemma {:induction false} FrameAtHead(s: Bytes)
    requires Next(s).Message?
    ensures var body := Next(s).body; s == Frame(body) + s[4 + |body|..]
  {
    FromBe32RoundTrip(s[..4]);
    var body := Next(s).body;
    assert s == s[..4] + body + s[4 + |body|..];
    Cat(s[..4], body, s[4 + |body|..]);
  }

  lemma {:induction false} Header(body: Bytes, s: Bytes)
    ensures |Frame(body) + s| == 4 + |body| + |s|
    ensures FromBe32((Frame(body) + s)[..4]) == |body| % U32
  {
    Be32RoundTrip(|body| % U32);
    assert (Frame(body) + s)[..4] == Be32(|body| % U32);
  }

  lemma {:induction false} Parts(a: Bytes, b: Bytes, c: Bytes)
    ensures (a + b + c)[|a|..|a| + |b|] == b
    ensures (a + b + c)[|a| + |b|..] == c
  {}

  lemma {:induction false} NextIsFrame(body: Bytes, s: Bytes)
    requires |body| <= MAX_FRAME_LEN
    ensures Next(Frame(body) + s) == Message(body)
    ensures (Frame(body) + s)[4 + |body|..] == s
  {
    Header(body, s);
    Parts(Be32(|body| % U32), body, s);
  }

  lemma {:induction false} FrameThenRest(body: Bytes, s: Bytes)
    requires |body| <= MAX_FRAME_LEN
    ensures Received(Frame(body) + s) == ([body] + Received(s).0, Received(s).1)
  {
    NextIsFrame(body, s);
  }

  /** Fitting frames in front of any bytes are read first and in order. */
  lemma {:induction false} FramesThenRest(frames: seq<Bytes>, s: Bytes)
    requires Fitting(frames)
    ensures Received(Wire(frames) + s) == (frames + Received(s).0, Received(s).1)
  {
    if frames == [] {
      assert Wire(frames) + s == s;
      assert frames + Received(s).0 == Received(s).0;
    } else {
      Cat(Frame(frames[0]), Wire(frames[1..]), s);
      FrameThenRest(frames[0], Wire(frames[1..]) + s);
      FramesThenRest(frames[1..], s);
      Cat([frames[0]], frames[1..], Received(s).0);
      assert [frames[0]] + frames[1..] == frames;
    }
  }

  /** A frame that does not fit never arrives as itself. */
  lemma {:induction false} OversizedIsLost(body: Bytes, s: Bytes)
    requires |body| > MAX_FRAME_LEN
    ensures Next(Frame(body) + s) != Message(body)
  {
    Header(body, s);
  }

  lemma {:induction false} FirstOversized(frames: seq<Bytes>) returns (k: nat)
    requires !Fitting(frames)
    ensures k < |frames| && Fitting(frames[..k]) && |frames[k]| > MAX_FRAME_LEN
  {
    if |frames[0]| > MAX_FRAME_LEN { return 0; }
    var j := FirstOversized(frames[1..]);
    assert forall i :: 0 < i <= j ==> frames[i] == frames[1..][..j][i - 1];
    k := j + 1;
  }

  lemma {:induction false} WireSplits(a: seq<Bytes>, b: seq<Bytes>)
    ensures Wire(a + b) == Wire(a) + Wire(b)
  {
    if a == [] {
      assert a + b == b;
    } else {
      assert (a + b)[1..] == a[1..] + b;
      WireSplits(a[1..], b);
      Cat(Frame(a[0]), Wire(a[1..]), Wire(b));
    }
  }

  lemma {:induction false} HeadDiffers<T>(a: seq<T>, b: seq<T>, c: seq<T>)
    requires c != [] && (b == [] || b[0] != c[0])
    ensures a + b != a + c
  {
    if |b| > 0 { assert (a + b)[|a|] != (a + c)[|a|]; }
  }

  /** A written sequence is read back, whole and in order and with a clean end, exactly when every
      body fits. */
  lemma {:induction false} RoundTrip(frames: seq<Bytes>)
    ensures Received(Wire(frames)) == (frames, Closed) <==> Fitting(frames)
  {
    if Fitting(frames) {
      FramesThenRest(frames, []);
      assert Wire(frames) + [] == Wire(frames) && frames + [] == frames;
    } else {
      var k := FirstOversized(frames);
      var a, b := frames[..k], frames[k..];
      assert frames == a + b && b[0] == frames[k];
      WireSplits(a, b);
      FramesThenRest(a, Wire(b));
      OversizedIsLost(frames[k], Wire(b[1..]));
      HeadDiffers(a, Received(Wire(b)).0, b);
    }
  }

  /** How many frames lie wholly within the first `n` bytes. */
  function Whole(frames: seq<Bytes>, n: nat): (k: nat)
    ensures k <= |frames|
    ensures |Wire(frames[..k])| <= n
    ensures k < |frames| ==> n < |Wire(frames[..k + 1])|
  {
    if frames == [] then 0
    else if n < |Frame(frames[0])| then
      assert frames[..1][1..] == [];
      assert Wire(frames[..1]) == Frame(frames[0]) + Wire([]);
      0
    else
      var k := Whole(frames[1..], n - |Frame(frames[0])|);
      assert frames[..k + 1][1..] == frames[1..][..k];
      assert k + 1 < |frames| ==> frames[..k + 2][1..] == frames[1..][..k + 1];
      k + 1
  }

  /** A connection that breaks after any number of bytes delivers exactly the frames that were sent
      completely. Breaking inside a header looks like a clean close, inside a body it is an error. */
  lemma {:induction false} Truncated(frames: seq<Bytes>, n: nat)
    requires Fitting(frames) && n <= |Wire(frames)|
    ensures var k := Whole(frames, n);
            var left := n - |Wire(frames[..k])|;
            Received(Wire(frames)[..n]) == (frames[..k], if left < 4 then Closed else MidFrame)
  {
    var k := Whole(frames, n);
    var a, b := frames[..k], frames[k..];
    assert frames == a + b;
    WireSplits(a, b);
    if b != [] { NextDoesNotFit(frames, n, k); }
    var left := n - |Wire(a)|;
    var rest := Wire(b)[..left];
    PartOfWire(b, left);
    assert Wire(frames)[..n] == Wire(a) + rest by { CutSecond(Wire(a), Wire(b), left); }
    FramesThenStop(a, rest, if left < 4 then Closed else MidFrame);
  }

  lemma {:induction false} NextDoesNotFit(frames: seq<Bytes>, n: nat, k: nat)
    requires k < |frames| && |Wire(frames[..k])| <= n < |Wire(frames[..k + 1])|
    ensures n - |Wire(frames[..k])| < |Frame(frames[k])|
  {
    assert frames[..k + 1] == frames[..k] + [frames[k]];
    WireSplits(frames[..k], [frames[k]]);
    OneFrame(frames[k]);
  }

  lemma {:induction false} OneFrame(body: Bytes)
    ensures Wire([body]) == Frame(body)
  {
    assert [body][1..] == [];
    assert Frame(body) + [] == Frame(body);
  }

  lemma {:induction false} FramesThenStop(a: seq<Bytes>, rest: Bytes, stop: Read)
    requires Fitting(a) && Received(rest) == ([], stop)
    ensures Received(Wire(a) + rest) == (a, stop)
  {
    FramesThenRest(a, rest);
    assert a + [] == a;
  }

  lemma {:induction false} PartOfWire(b: seq<Bytes>, left: nat)
    requires Fitting(b) && left <= |Wire(b)| && (b != [] ==> left < |Frame(b[0])|)
    ensures Received(Wire(b)[..left]) == ([], if left < 4 then Closed else MidFrame)
  {
    if b != [] { PartOfFrame(b[0], Wire(b[1..]), left); }
  }

  lemma {:induction false} CutSecond(x: Bytes, y: Bytes, left: nat)
    requires left <= |y|
    ensures (x + y)[..|x| + left] == x + y[..left]
  {}

  lemma {:induction false} PartOfFrame(body: Bytes, s: Bytes, left: nat)
    requires |body| <= MAX_FRAME_LEN && left < |Frame(body)|
    ensures Received((Frame(body) + s)[..left]) == ([], if left < 4 then Closed else MidFrame)
  {
    Header(body, s);
    var all := Frame(body) + s;
    if left >= 4 { assert all[..left][..4] == all[..4]; }
  }

  /** The agent's `read_framed_message`, which has no clean end: a short read is always an error. */
  function AgentNext(s: Bytes, maxLen: nat): Option<Bytes> {
    if |s| < 4 || FromBe32(s[..4]) > maxLen || |s| - 4 < FromBe32(s[..4]) then None
    else Some(s[4..4 + FromBe32(s[..4])])
  }

  /** Whatever the workload's reader accepts, the agent's reader accepts under the same limit, and
      reading what is accepted and writing it again gives the same bytes. */
  lemma {:induction false} ReadersAgree(s: Bytes)
    ensures AgentNext(s, MAX_FRAME_LEN) == (match Next(s) case Message(body) => Some(body) case _ => None)
    ensures AgentNext(s, MAX_FRAME_LEN).Some? ==> Frame(AgentNext(s, MAX_FRAME_LEN).value) <= s
  {
    if Next(s).Message? { FrameAtHead(s); }
  }
}
