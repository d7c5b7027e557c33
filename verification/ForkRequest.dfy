/** Asking the sandbox parent process to fork: a 512-byte request holding the sandbox id and the path
    of its network namespace, and a four-byte reply holding the pid. Both travel through pipes that
    transfer any number of bytes at a time.
 */
module ForkRequest {
  import opened Basics
  import opened Wrappers

  type Bytes = seq<Byte>

  const REQUEST := 512
  const ID := 64
  const REPLY := 4

  function Zeros(n: nat): (r: Bytes)
    ensures |r| == n && forall i :: 0 <= i < n ==> r[i] == 0
  {
    if n == 0 then [] else [0] + Zeros(n - 1)
  }

  function Pad(b: Bytes, n: nat): (r: Bytes)
    requires |b| <= n
    ensures |r| == n && b <= r && forall i :: |b| <= i < n ==> r[i] == 0
  {
    b + Zeros(n - |b|)
  }

  datatype Call = Call(id: Bytes, netns: Bytes)

  /** What the encoder takes: longer fields end the call with an error before anything is sent. */
  predicate Accepted(c: Call) { |c.id| <= ID && |c.netns| <= REQUEST - ID }

  function Encode(c: Call): (r: Bytes)
    requires Accepted(c)
    ensures |r| == REQUEST
  {
    Pad(c.id, ID) + Pad(c.netns, REQUEST - ID)
  }

  /** The text before the first zero byte; nothing if there is none. */
  function UpToZero(b: Bytes): Bytes {
    if 0 in b then b[..FirstZero(b)] else []
  }

  function FirstZero(b: Bytes): (k: nat)
    requires 0 in b
    ensures k < |b| && b[k] == 0 && forall i :: 0 <= i < k ==> b[i] != 0
  {
    if b[0] == 0 then 0 else
      assert forall x :: x in b <==> x == b[0] || x in b[1..];
      1 + FirstZero(b[1..])
  }

  function Decode(b: Bytes): Call
    requires |b| == REQUEST
  {
    Call(b[..ID], UpToZero(b[ID..]))
  }

  /** The calls the parent understands as they were meant. */
  predicate Proper(c: Call) {
    |c.id| == ID && |c.netns| < REQUEST - ID && 0 !in c.netns
  }

  /** Among the accepted calls the proper ones, and only those, survive the request format. In
      particular a namespace path that fills its field is read as the empty path. */
  lemma {:induction false} RoundTrip(c: Call)
    requires Accepted(c)
    ensures Decode(Encode(c)) == c <==> Proper(c)
  {
    var e := Encode(c);
    assert e[ID..] == Pad(c.netns, REQUEST - ID);
    assert e[..ID] == Pad(c.id, ID);
    if |c.id| == ID { assert e[..ID] == c.id; }
    PaddedText(c.netns, REQUEST - ID);
  }

  lemma {:induction false} PaddedText(t: Bytes, n: nat)
    requires 0 < n && |t| <= n
    ensures UpToZero(Pad(t, n)) == t <==> |t| < n && 0 !in t
  {
    var p := Pad(t, n);
    if |t| < n {
      assert p[|t|] == 0;
      var k := FirstZero(p);
      if 0 in t {
        assert p[FirstZero(t)] == 0;
        assert k < |t|;
      } else {
        assert p[..|t|] == t;
        assert forall i :: 0 <= i < |t| ==> t[i] == p[i] != 0;
      }
    } else {
      assert p == t;
    }
  }

  /** The request as the client builds it, in place. */
  method BuildRequest(c: Call) returns (r: Option<Bytes>)
    ensures r == if Accepted(c) then Some(Encode(c)) else None
  {
    var req := new Byte[REQUEST](_ => 0);
    if |c.id| > ID { return None; }
    forall i | 0 <= i < |c.id| { req[i] := c.id[i]; }
    if |c.netns| > REQUEST - ID { return None; }
    forall i | 0 <= i < |c.netns| { req[ID + i] := c.netns[i]; }
    assert req[..ID] == Pad(c.id, ID);
    assert req[ID..] == Pad(c.netns, REQUEST - ID);
    assert req[..] == req[..ID] + req[ID..];
    return Some(req[..]);
  }

  /** The request as the parent takes it apart. */
  method ParseRequest(buffer: array<Byte>) returns (c: Call)
    requires buffer.Length == REQUEST
    ensures c == Decode(buffer[..])
  {
    var zero, i := ID, ID;
    ghost var text := buffer[ID..];
    while i < REQUEST
      invariant ID <= i <= REQUEST && zero == ID
      invariant forall j :: 0 <= j < i - ID ==> text[j] != 0
    {
      if buffer[i] == 0 {
        zero := i;
        assert text[i - ID] == 0;
        assert FirstZero(text) == i - ID;
        break;
      }
      assert text[i - ID] == buffer[i];
      i := i + 1;
    }
    assert buffer[..][ID..] == text && buffer[..][..ID] == buffer[..ID];
    assert buffer[ID..zero] == text[..zero - ID];
    c := Call(buffer[..ID], buffer[ID..zero]);
  }

  // Two's complement, least significant byte first.

  predicate I32(n: int) { -0x8000_0000 <= n < 0x8000_0000 }

  function Le32(n: int): (r: Bytes)
    requires I32(n)
    ensures |r| == REPLY
  {
    var u := if n < 0 then n + 0x1_0000_0000 else n;
    [u % 0x100, u / 0x100 % 0x100, u / 0x1_0000 % 0x100, u / 0x100_0000]
  }

  function FromLe32(b: Bytes): (n: int)
    requires |b| == REPLY
    ensures I32(n)
  {
    var u := b[0] as int + 0x100 * (b[1] as int) + 0x1_0000 * (b[2] as int) + 0x100_0000 * (b[3] as int);
    if u < 0x8000_0000 then u else u - 0x1_0000_0000
  }

  lemma {:induction false} PidRoundTrip(n: int)
    requires I32(n)
    ensures FromLe32(Le32(n)) == n
  {
    var u := if n < 0 then n + 0x1_0000_0000 else n;
    Digits(u, u / 0x100, u / 0x1_0000);
  }

  // Transfers in any number of pieces.

  datatype Io = Done(n: nat) | Eintr | Fails

  /** One end of a pipe. For a reader `bytes` is everything still to come before the end of the
      stream, for a writer everything written so far. Signals interrupt calls `interrupts` more
      times; other errors happen only to a `broken` end. */
  class Pipe {
    var bytes: Bytes
    var interrupts: nat
    const broken: bool

    constructor (s: Bytes, signals: nat, bad: bool)
      ensures bytes == s && interrupts == signals && broken == bad
    {
      bytes, interrupts, broken := s, signals, bad;
    }

    method Read(n: nat) returns (r: Io, chunk: Bytes)
      modifies this
      ensures r.Eintr? ==> bytes == old(bytes) && interrupts < old(interrupts)
      ensures r.Done? ==> r.n == |chunk| <= n && chunk + bytes == old(bytes) && interrupts == old(interrupts)
      ensures r.Done? && r.n == 0 ==> n == 0 || bytes == []
      ensures r.Fails? ==> broken
    {
      chunk := [];
      var signal: bool, fail: bool := *, *;
      if interrupts > 0 && signal {
        interrupts := interrupts - 1;
        return Eintr, [];
      }
      if broken && fail { return Fails, []; }
      if n == 0 || bytes == [] { return Done(0), []; }
      var k :| 0 < k <= n && k <= |bytes|;
      r, chunk, bytes := Done(k), bytes[..k], bytes[k..];
    }

    method Write(buf: Bytes) returns (r: Io)
      modifies this
      ensures r.Eintr? ==> bytes == old(bytes) && interrupts < old(interrupts)
      ensures r.Done? ==> r.n <= |buf| && bytes == old(bytes) + buf[..r.n] && interrupts == old(interrupts)
      ensures r.Done? && r.n == 0 ==> buf == []
      ensures r.Fails? ==> broken && bytes == old(bytes)
    {
      var signal: bool, fail: bool := *, *;
      if interrupts > 0 && signal {
        interrupts := interrupts - 1;
        return Eintr;
      }
      if broken && fail { return Fails; }
      if buf == [] { return Done(0); }
      var k :| 0 < k <= |buf|;
      r, bytes := Done(k), bytes + buf[..k];
    }
  }

  /** `read_count`: the bytes asked for, or at the end of the stream what there was and zeros. */
  method ReadCount(p: Pipe, count: nat) returns (r: Option<array<Byte>>)
    modifies p
    ensures !p.broken ==> r.Some?
    ensures r.Some? ==> fresh(r.value) && r.value.Length == count
    ensures r.Some? && count <= |old(p.bytes)| ==> r.value[..] + p.bytes == old(p.bytes)
    ensures r.Some? && count > |old(p.bytes)| ==> r.value[..] == Pad(old(p.bytes), count) && p.bytes == []
  {
    var buf := new Byte[count](_ => 0);
    var idx := 0;
    while true
      invariant 0 <= idx <= count && fresh(buf)
      invariant buf[..idx] + p.bytes == old(p.bytes)
      invariant forall i :: idx <= i < count ==> buf[i] == 0
      decreases p.interrupts, count - idx
    {
      ghost var done := buf[..idx];
      var l, chunk := p.Read(count - idx);
      match l
      case Eintr =>
      case Fails => return None;
      case Done(n) =>
        forall i | 0 <= i < n { buf[idx + i] := chunk[i]; }
        assert buf[..idx] == done;
        assert buf[idx..idx + n] == chunk;
        assert buf[..idx + n] == done + chunk;
        Cat(done, chunk, p.bytes);
        idx := idx + n;
        if idx == count || n == 0 {
          if idx == count { assert buf[..idx] == buf[..]; }
          else { assert buf[..] == Pad(buf[..idx], count); }
          return Some(buf);
        }
    }
  }

  /** `write_all`. */
  method WriteAll(p: Pipe, buf: array<Byte>) returns (ok: bool)
    modifies p
    ensures !p.broken ==> ok
    ensures ok ==> p.bytes == old(p.bytes) + buf[..]
    ensures !ok ==> exists k :: 0 <= k <= buf.Length && p.bytes == old(p.bytes) + buf[..k]
  {
    var idx := 0;
    while true
      invariant 0 <= idx <= buf.Length
      invariant p.bytes == old(p.bytes) + buf[..idx]
      decreases p.interrupts, buf.Length - idx
    {
      var l := p.Write(buf[idx..]);
      match l
      case Eintr =>
      case Fails =>
        assert p.bytes == old(p.bytes) + buf[..idx];
        return false;
      case Done(n) =>
        Cat(old(p.bytes), buf[..idx], buf[idx..][..n]);
        assert buf[..idx] + buf[idx..][..n] == buf[..idx + n];
        idx := idx + n;
        if idx == buf.Length {
          assert buf[..idx] == buf[..];
          return true;
        }
    }
  }
}
