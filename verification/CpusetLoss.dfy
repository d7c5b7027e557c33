/** When merging CPU lists loses a CPU: of the first list only the nearest range on either side matters.
 */
module CpusetLoss {
  import opened Cpuset

  /** The ends of a range, whichever way round it is. */
  function Low(e: Range): int { if e.low <= e.high then e.low else e.high }

  function High(e: Range): int { if e.low <= e.high then e.high else e.low }

  predicate InGap(e: Range, l: int, r: int) { l < Low(e) && High(e) < r }

  // ---- Bases ----

  /** A base stays the wrong way round only if it meets nothing; then it is what it was. */
  lemma {:induction false} InertBase(base: Range, ds: seq<Range>)
    requires Grow(base, ds).low > Grow(base, ds).high
    ensures Grow(base, ds) == base && forall j :: 0 <= j < |ds| ==> !Meets(base, ds[j])
    decreases |ds|
  {
    if ds != [] {
      InertBase(Merge(base, ds[0]), ds[1..]);
      assert !Meets(base, ds[0]);
      forall j | 0 <= j < |ds| ensures !Meets(base, ds[j]) {
        if j > 0 { assert ds[j] == ds[1..][j - 1]; }
      }
    }
  }

  predicate LeftOf(b: Range, x: int) { b.low <= b.high < x }

  predicate RightOf(b: Range, x: int) { x < b.low <= b.high }

  /** Where the gap around `x` begins: at the nearest range to the left of it, if there is one. */
  lemma {:induction false} NearestLeft(parts: seq<Range>, x: int) returns (l: int, i: nat)
    ensures forall j :: 0 <= j < |parts| && LeftOf(parts[j], x) ==> parts[j].high <= l
    ensures i < |parts| ==> LeftOf(parts[i], x) && l == parts[i].high
    ensures i >= |parts| ==> i == |parts| && l == -1 && forall j :: 0 <= j < |parts| ==> !LeftOf(parts[j], x)
  {
    l, i := -1, |parts|;
    for k := 0 to |parts|
      invariant forall j :: 0 <= j < k && LeftOf(parts[j], x) ==> parts[j].high <= l
      invariant i < k ==> LeftOf(parts[i], x) && l == parts[i].high
      invariant i >= k ==> i == |parts| && l == -1 && forall j :: 0 <= j < k ==> !LeftOf(parts[j], x)
    {
      if LeftOf(parts[k], x) && parts[k].high > l { l, i := parts[k].high, k; }
    }
  }

  lemma {:induction false} NearestRight(parts: seq<Range>, x: int) returns (r: int, i: nat)
    ensures forall j :: 0 <= j < |parts| && RightOf(parts[j], x) ==> parts[j].low >= r
    ensures i < |parts| ==> RightOf(parts[i], x) && r == parts[i].low
    ensures i >= |parts| ==> i == |parts| && r == U32_MAX + 1 && forall j :: 0 <= j < |parts| ==> !RightOf(parts[j], x)
  {
    r, i := U32_MAX + 1, |parts|;
    for k := 0 to |parts|
      invariant forall j :: 0 <= j < k && RightOf(parts[j], x) ==> parts[j].low >= r
      invariant i < k ==> RightOf(parts[i], x) && r == parts[i].low
      invariant i >= k ==> i == |parts| && r == U32_MAX + 1 && forall j :: 0 <= j < k ==> !RightOf(parts[j], x)
    {
      if RightOf(parts[k], x) && parts[k].low < r { r, i := parts[k].low, k; }
    }
  }

  // ---- What happens inside the gap ----

  /** Nothing a range of `all` inside the gap meets, and not `x`. */
  predicate Outside(a: Range, all: seq<Range>, l: int, r: int, x: int) {
    !In(a, x) && forall j :: 0 <= j < |all| && InGap(all[j], l, r) ==> !Meets(a, all[j])
  }

  /** The borders of the gap are among the parts: a range that meets no part holds neither. */
  predicate Bordered(parts: seq<Range>, l: int, r: int) {
    && (l >= 0 ==> exists i :: 0 <= i < |parts| && parts[i].low <= parts[i].high == l)
    && (r <= U32_MAX ==> exists i :: 0 <= i < |parts| && r == parts[i].low <= parts[i].high)
  }

  /** A range that meets no part lies in the gap or keeps out of it. */
  lemma {:induction false} InOrOut(parts: seq<Range>, d: Range, all: seq<Range>, l: int, r: int, x: int)
    requires Bordered(parts, l, r) && !AnyMeets(parts, d) && -1 <= l < x < r <= U32_MAX + 1
    ensures InGap(d, l, r) || Outside(d, all, l, r, x)
  {
    assert l >= 0 ==> !In(d, l);
    assert r <= U32_MAX ==> !In(d, r);
    if !InGap(d, l, r) {
      forall j | 0 <= j < |all| && InGap(all[j], l, r) ensures !Meets(d, all[j]) {
        ApartFromGap(d, all[j], l, r);
      }
    }
  }

  lemma {:induction false} ApartFromGap(d: Range, e: Range, l: int, r: int)
    requires !InGap(d, l, r) && InGap(e, l, r) && (l >= 0 ==> !In(d, l)) && (r <= U32_MAX ==> !In(d, r))
    ensures !Meets(d, e)
  {}

  /** Every part is outside the gap or is one of the other parts. */
  predicate Matched(parts: seq<Range>, other: seq<Range>, all: seq<Range>, l: int, r: int, x: int) {
    forall i :: 0 <= i < |parts| ==> Outside(parts[i], all, l, r, x) || parts[i] in other
  }

  lemma {:induction false} MeetBoth(parts: seq<Range>, other: seq<Range>, all: seq<Range>, l: int, r: int, x: int, k: nat)
    requires Matched(parts, other, all, l, r, x) && k < |all| && InGap(all[k], l, r) && AnyMeets(parts, all[k])
    ensures AnyMeets(other, all[k])
  {
    var i :| 0 <= i < |parts| && Meets(parts[i], all[k]);
    assert !Outside(parts[i], all, l, r, x);
    var j :| 0 <= j < |other| && other[j] == parts[i];
  }

  /** Both sides go on alike. */
  ghost predicate Alike(parts: seq<Range>, other: seq<Range>, all: seq<Range>, l: int, r: int, x: int) {
    && Bordered(parts, l, r) && Bordered(other, l, r)
    && Matched(parts, other, all, l, r, x) && Matched(other, parts, all, l, r, x)
  }

  function Next(parts: seq<Range>, d: Range): seq<Range> {
    if AnyMeets(parts, d) then parts else parts + [d]
  }

  lemma {:induction false} StillBordered(parts: seq<Range>, d: Range, l: int, r: int)
    requires Bordered(parts, l, r)
    ensures Bordered(Next(parts, d), l, r)
  {
    var next := Next(parts, d);
    if l >= 0 {
      var i :| 0 <= i < |parts| && parts[i].low <= parts[i].high == l;
      assert next[i] == parts[i];
    }
    if r <= U32_MAX {
      var i :| 0 <= i < |parts| && r == parts[i].low <= parts[i].high;
      assert next[i] == parts[i];
    }
  }

  lemma {:induction false} StillMatched(parts: seq<Range>, other: seq<Range>, all: seq<Range>, k: nat, l: int, r: int, x: int)
    requires Alike(parts, other, all, l, r, x) && k < |all| && -1 <= l < x < r <= U32_MAX + 1
    ensures Matched(Next(parts, all[k]), Next(other, all[k]), all, l, r, x)
  {
    var d, next, next' := all[k], Next(parts, all[k]), Next(other, all[k]);
    forall i | 0 <= i < |next| ensures Outside(next[i], all, l, r, x) || next[i] in next' {
      if i < |parts| {
        assert next[i] == parts[i];
      } else {
        InOrOut(parts, d, all, l, r, x);
        if InGap(d, l, r) && AnyMeets(other, d) { MeetBoth(other, parts, all, l, r, x, k); }
      }
    }
  }

  lemma {:induction false} AlikeToTheEnd(parts: seq<Range>, other: seq<Range>, all: seq<Range>, k: nat, l: int, r: int, x: int)
    requires Alike(parts, other, all, l, r, x) && k <= |all| && -1 <= l < x < r <= U32_MAX + 1
    ensures Matched(AddRest(other, all[k..]), AddRest(parts, all[k..]), all, l, r, x)
    decreases |all| - k
  {
    if k < |all| {
      var d := all[k];
      StillBordered(parts, d, l, r);
      StillBordered(other, d, l, r);
      StillMatched(parts, other, all, k, l, r, x);
      StillMatched(other, parts, all, k, l, r, x);
      AlikeToTheEnd(Next(parts, d), Next(other, d), all, k + 1, l, r, x);
      assert all[k..][0] == d && all[k..][1..] == all[k + 1..];
    }
  }

  // ---- Losses ----

  predicate Loses(list: seq<Range>, ds: seq<Range>, x: int) {
    Covers(ds, x) && !Covers(Merged(list, ds), x)
  }

  /** The base whose growth ends where the gap begins, and the one whose growth begins where it ends. */
  function Nearest(list: seq<Range>, i: nat, k: nat): seq<Range> {
    (if i < |list| then [list[i]] else []) + (if k < |list| then [list[k]] else [])
  }

  lemma {:induction false} NearestGrown(list: seq<Range>, ds: seq<Range>, i: nat, k: nat)
    ensures GrowAll(Nearest(list, i, k), ds) == Nearest(GrowAll(list, ds), i, k)
  {}

  lemma {:induction false} BasesOutside(list: seq<Range>, ds: seq<Range>, l: int, r: int, x: int, j: nat)
    requires j < |list| && !In(Grow(list[j], ds), x)
    requires LeftOf(Grow(list[j], ds), x) ==> Grow(list[j], ds).high <= l
    requires RightOf(Grow(list[j], ds), x) ==> r <= Grow(list[j], ds).low
    ensures Outside(Grow(list[j], ds), ds, l, r, x)
  {
    var b := Grow(list[j], ds);
    if b.low > b.high { InertBase(list[j], ds); }
  }

  /** A CPU that the merge loses is lost already with at most two ranges of the first list. */
  lemma {:induction false} LossNeedsTwo(list: seq<Range>, ds: seq<Range>, x: int) returns (few: seq<Range>)
    requires Loses(list, ds, x)
    ensures |few| <= 2 && (forall b :: b in few ==> b in list) && Loses(few, ds, x)
  {
    var parts := GrowAll(list, ds);
    RestBounds(parts, ds, x);
    var l, i := NearestLeft(parts, x);
    var r, k := NearestRight(parts, x);
    few := Nearest(list, i, k);
    NearestGrown(list, ds, i, k);
    var i0 :| 0 <= i0 < |ds| && In(ds[i0], x);
    AroundIsAlike(list, ds, x, l, i, r, k);
    assert ds[0..] == ds;
    AlikeToTheEnd(parts, Nearest(parts, i, k), ds, 0, l, r, x);
    StillLost(AddRest(parts, ds), AddRest(Nearest(parts, i, k), ds), ds, l, r, x);
  }

  lemma {:induction false} StillLost(parts: seq<Range>, other: seq<Range>, all: seq<Range>, l: int, r: int, x: int)
    requires Matched(other, parts, all, l, r, x) && !Covers(parts, x)
    ensures !Covers(other, x)
  {
    forall i | 0 <= i < |other| ensures !In(other[i], x) {
      assert other[i] in parts ==> !In(other[i], x);
    }
  }

  lemma {:induction false} AroundIsAlike(list: seq<Range>, ds: seq<Range>, x: int, l: int, i: nat, r: int, k: nat)
    requires !Covers(GrowAll(list, ds), x)
    requires var parts := GrowAll(list, ds);
             && (forall j :: 0 <= j < |parts| && LeftOf(parts[j], x) ==> parts[j].high <= l)
             && (forall j :: 0 <= j < |parts| && RightOf(parts[j], x) ==> parts[j].low >= r)
             && (if i < |parts| then LeftOf(parts[i], x) && l == parts[i].high else l == -1)
             && (if k < |parts| then RightOf(parts[k], x) && r == parts[k].low else r == U32_MAX + 1)
    ensures Alike(GrowAll(list, ds), Nearest(GrowAll(list, ds), i, k), ds, l, r, x)
  {
    var parts := GrowAll(list, ds);
    var near := Nearest(parts, i, k);
    forall j | 0 <= j < |parts| ensures Outside(parts[j], ds, l, r, x) {
      assert !In(parts[j], x);
      BasesOutside(list, ds, l, r, x, j);
    }
    if i < |parts| { assert near[0] == parts[i]; }
    if k < |parts| { assert near[|near| - 1] == parts[k]; }
  }

  /** The merge with `ds` is the union for every first list if and only if it is for every first list of
      at most two ranges. */
  lemma {:induction false} TwoSuffice(ds: seq<Range>)
    ensures AlwaysUnion(ds) <==> forall few: seq<Range>, x: int :: |few| <= 2 ==> !Loses(few, ds, x)
  {
    if AlwaysUnion(ds) {
      forall few: seq<Range>, x: int | |few| <= 2 ensures !Loses(few, ds, x) {
        assert UnionAt(few, ds, x);
      }
    }
    if forall few: seq<Range>, x: int :: |few| <= 2 ==> !Loses(few, ds, x) {
      forall list: seq<Range>, x: int ensures UnionAt(list, ds, x) {
        MergeInventsNothing(list, ds, x);
        if Loses(list, ds, x) { var few := LossNeedsTwo(list, ds, x); }
      }
    }
  }
}
