/** The Fletcher-64 checksum of a DAX info block.

    A block is its sequence of 32-bit words, in the order and with the values that the little-endian
    conversion gives; the last two words are the stored checksum.
 */
module Fletcher {

  const W := 0x1_0000_0000

  const W64 := 0x1_0000_0000_0000_0000

  type Word = w: int | 0 <= w < 0x1_0000_0000

  function Sum(b: seq<Word>): int {
    if b == [] then 0 else Sum(b[..|b| - 1]) + b[|b| - 1]
  }

  /** The running totals of the running sums. */
  function Weighted(b: seq<Word>): int {
    if b == [] then 0 else Weighted(b[..|b| - 1]) + Sum(b)
  }

  /** The same number with its weights written out: the sum of (n - i) * b[i]. */
  function Spread(b: seq<Word>, n: int): int {
    if b == [] then 0 else Spread(b[..|b| - 1], n) + (n - (|b| - 1)) * b[|b| - 1]
  }

  lemma {:induction false} SpreadMore(b: seq<Word>, n: int)
    ensures Spread(b, n + 1) == Spread(b, n) + Sum(b)
  {
    if b != [] {
      SpreadMore(b[..|b| - 1], n);
      var w, k := b[|b| - 1], n - (|b| - 1);
      assert (k + 1) * w == k * w + w;
    }
  }

  lemma {:induction false} WeightedIsSpread(b: seq<Word>)
    ensures Weighted(b) == Spread(b, |b|)
  {
    if b != [] {
      var f := b[..|b| - 1];
      WeightedIsSpread(f);
      SpreadMore(f, |f|);
    }
  }

  /** Low half: the sum of b[i]. High half: the sum of (n - i) * b[i]. Both modulo 2^32. */
  function Checksum(b: seq<Word>): int {
    (Spread(b, |b|) % W) * W + Sum(b) % W
  }

  lemma {:induction false} AddMod(a: int, b: int)
    ensures (a % W + b) % W == (a + b) % W
  {}

  lemma {:induction false} ShiftWord(a: int)
    requires 0 <= a
    ensures (a * W) % W64 == (a % W) * W
  {}

  /** `nd_fletcher64`: a 32-bit sum and a 64-bit sum of sums, both wrapping. */
  method NdFletcher64(buf: array<Word>) returns (sum: int)
    ensures sum == Checksum(buf[..])
  {
    var lo32, hi32 := 0, 0;
    for i := 0 to buf.Length
      invariant lo32 == Sum(buf[..i]) % W
      invariant 0 <= hi32 < W64 && hi32 % W == Weighted(buf[..i]) % W
    {
      assert buf[..i + 1][..i] == buf[..i];
      AddMod(Sum(buf[..i]), buf[i]);
      lo32 := (lo32 + buf[i]) % W;
      AddMod(Weighted(buf[..i]), Sum(buf[..i + 1]));
      AddMod(Sum(buf[..i + 1]), Weighted(buf[..i]));
      HighHalf(hi32, lo32, Weighted(buf[..i]), Sum(buf[..i + 1]));
      hi32 := (hi32 + lo32) % W64;
    }
    assert buf[..buf.Length] == buf[..];
    WeightedIsSpread(buf[..]);
    ShiftWord(hi32);
    sum := (hi32 * W) % W64 + lo32;
  }

  lemma {:induction false} HighHalf(hi: int, lo: int, weighted: int, s: int)
    requires 0 <= hi < W64 && hi % W == weighted % W && lo == s % W
    ensures (hi + lo) % W64 % W == (weighted + s) % W
  {}

  // ---- What the checksum detects ----

  lemma {:induction false} SumUpdate(b: seq<Word>, i: nat, v: Word)
    requires i < |b|
    ensures Sum(b[i := v]) == Sum(b) - b[i] + v
  {
    var n := |b| - 1;
    if i < n {
      assert b[i := v][..n] == b[..n][i := v];
      SumUpdate(b[..n], i, v);
    } else {
      assert b[i := v][..n] == b[..n];
    }
  }

  lemma {:induction false} WeightedUpdate(b: seq<Word>, i: nat, v: Word, k: int, x: int)
    requires i < |b| && k == |b| - i && x == Minus(v, b[i])
    ensures Weighted(b[i := v]) == Weighted(b) + k * x
  {
    var n := |b| - 1;
    SumUpdate(b, i, v);
    if i < n {
      assert b[i := v][..n] == b[..n][i := v];
      WeightedUpdate(b[..n], i, v, k - 1, x);
      OneMore(k - 1, x);
    } else {
      assert b[i := v][..n] == b[..n];
    }
  }

  lemma {:induction false} OneMore(k: int, x: int)
    ensures (k + 1) * x == k * x + x
  {}

  lemma {:induction false} SameChecksum(a: seq<Word>, b: seq<Word>)
    ensures Checksum(a) == Checksum(b) <==> Sum(a) % W == Sum(b) % W && Weighted(a) % W == Weighted(b) % W
  {
    WeightedIsSpread(a);
    WeightedIsSpread(b);
  }

  lemma {:induction false} SmallDifference(x: int, d: int)
    requires -W < d < W && d != 0
    ensures (x + d) % W != x % W
  {}

  /** Changing any one word changes the checksum. */
  lemma {:induction false} DetectsOneWord(b: seq<Word>, i: nat, v: Word)
    requires i < |b| && v != b[i]
    ensures Checksum(b[i := v]) != Checksum(b)
  {
    SumUpdate(b, i, v);
    SmallDifference(Sum(b), Minus(v, b[i]));
    SameChecksum(b[i := v], b);
  }

  function Minus(x: Word, y: Word): int {
    x as int - y as int
  }

  function Swapped(b: seq<Word>, i: nat, j: nat): seq<Word>
    requires i < |b| && j < |b|
  {
    b[i := b[j]][j := b[i]]
  }

  lemma {:induction false} SwapSum(b: seq<Word>, i: nat, j: nat)
    requires i < j < |b|
    ensures Sum(Swapped(b, i, j)) == Sum(b)
  {
    SumUpdate(b, i, b[j]);
    SumUpdate(b[i := b[j]], j, b[i]);
  }

  lemma {:induction false} SwapWeights(w0: int, w1: int, w2: int, p: int, q: int, d: int, x: int, y: int)
    requires d == p - q && y == -x && w1 == w0 + p * x && w2 == w1 + q * y
    ensures w2 == w0 + d * x
  {}

  lemma {:induction false} SwapWeighted(b: seq<Word>, i: nat, j: nat, x: int, d: int)
    requires i < j < |b| && x == Minus(b[j], b[i]) && d == j - i
    ensures Weighted(Swapped(b, i, j)) == Weighted(b) + d * x
  {
    var c, e := b[i := b[j]], Swapped(b, i, j);
    assert c[j] == b[j] && c[j := b[i]] == e;
    var p, q, y := |b| - i, |b| - j, Minus(b[i], b[j]);
    WeightedUpdate(b, i, b[j], p, x);
    WeightedUpdate(c, j, b[i], q, y);
    SwapWeights(Weighted(b), Weighted(c), Weighted(e), p, q, d, x, y);
  }

  lemma {:induction false} DiffMod(x: int, d: int)
    ensures (x + d) % W == x % W <==> d % W == 0
  {}

  /** Swapping two words goes unnoticed exactly when the distance times the difference is a multiple
      of 2^32. */
  lemma {:induction false} SwapDetection(b: seq<Word>, i: nat, j: nat)
    requires i < j < |b|
    ensures Checksum(Swapped(b, i, j)) == Checksum(b) <==> ((j - i) * Minus(b[j], b[i])) % W == 0
  {
    SwapSum(b, i, j);
    SwapWeighted(b, i, j, Minus(b[j], b[i]), j - i);
    DiffMod(Weighted(b), (j - i) * Minus(b[j], b[i]));
    SameChecksum(Swapped(b, i, j), b);
  }

  function Pow2(k: nat): nat {
    if k == 0 then 1 else 2 * Pow2(k - 1)
  }

  lemma {:induction false} OddTimes(d: int, e: int, x: int)
    requires d == 2 * e + 1
    ensures d * x == 2 * (e * x) + x
  {}

  lemma {:induction false} TimesEven(a: int, b: int)
    ensures a * (2 * b) == 2 * (a * b)
  {}

  /** An odd factor does not help to reach a power of two. */
  lemma {:induction false} OddFactor(d: int, x: int, q: int, k: nat) returns (y: int)
    requires d % 2 == 1 && d * x == q * Pow2(k)
    ensures x == y * Pow2(k)
    decreases k
  {
    if k == 0 {
      y := x;
    } else {
      var e, p := d / 2, Pow2(k - 1);
      OddTimes(d, e, x);
      TimesEven(q, p);
      var h := q * p - e * x;
      assert x == 2 * h;
      TimesEven(d, h);
      y := OddFactor(d, h, q, k - 1);
      TimesEven(y, p);
    }
  }

  lemma {:induction false} Pow2Of32()
    ensures Pow2(32) == W
  {
    assert Pow2(8) == 256;
    assert Pow2(16) == 0x1_0000;
    assert Pow2(24) == 0x100_0000;
  }

  lemma {:induction false} OddMultiple(d: int, x: int)
    requires d % 2 == 1 && -W < x < W && (d * x) % W == 0
    ensures x == 0
  {
    Pow2Of32();
    var y := OddFactor(d, x, (d * x) / W, 32);
  }

  /** So swapping two different words an odd distance apart always changes the checksum. */
  lemma {:induction false} DetectsOddSwap(b: seq<Word>, i: nat, j: nat)
    requires i < j < |b| && b[i] != b[j] && (j - i) % 2 == 1
    ensures Checksum(Swapped(b, i, j)) != Checksum(b)
  {
    SwapDetection(b, i, j);
    var d, x := j - i, Minus(b[j], b[i]);
    if (d * x) % W == 0 { OddMultiple(d, x); }
  }

  // ---- The info block ----

  const BLOCK_WORDS := 1024

  function Blank(b: seq<Word>): seq<Word>
    requires |b| == BLOCK_WORDS
  {
    b[..BLOCK_WORDS - 2] + [0, 0]
  }

  /** `nd_sb_checksum`: clear the stored checksum, sum the block, put it back. The block is left as it
      was and the result does not depend on the stored checksum. */
  method NdSbChecksum(block: array<Word>) returns (sum: int)
    requires block.Length == BLOCK_WORDS
    modifies block
    ensures block[..] == old(block[..])
    ensures sum == Checksum(Blank(block[..]))
  {
    var lo, hi := block[BLOCK_WORDS - 2], block[BLOCK_WORDS - 1];
    block[BLOCK_WORDS - 2], block[BLOCK_WORDS - 1] := 0, 0;
    assert block[..] == Blank(old(block[..]));
    sum := NdFletcher64(block);
    block[BLOCK_WORDS - 2], block[BLOCK_WORDS - 1] := lo, hi;
    assert block[..] == old(block[..]);
  }

  /** Two blocks that differ outside the stored checksum in one word have different checksums; two
      that agree there have the same, whatever checksums they store. */
  lemma {:induction false} StoredChecksumIsIgnored(a: seq<Word>, b: seq<Word>)
    requires |a| == |b| == BLOCK_WORDS && a[..BLOCK_WORDS - 2] == b[..BLOCK_WORDS - 2]
    ensures Checksum(Blank(a)) == Checksum(Blank(b))
  {}

  lemma {:induction false} BlockDetectsOneWord(a: seq<Word>, i: nat, v: Word)
    requires |a| == BLOCK_WORDS && i < BLOCK_WORDS - 2 && v != a[i]
    ensures Checksum(Blank(a[i := v])) != Checksum(Blank(a))
  {
    assert Blank(a[i := v]) == Blank(a)[i := v];
    DetectsOneWord(Blank(a), i, v);
  }
}
