/** Lists of CPU ranges as text such as `0-3,8`, and the merge of two of them.
 */
module Cpuset {
  import opened Numbers
  import opened Wrappers

  const U32_MAX := 0xffff_ffff
  type U32 = x: int | 0 <= x <= 0xffff_ffff

  datatype Range = Range(low: U32, high: U32)

  // Meaning. A range whose bounds are the wrong way round holds no CPU.

  predicate In(r: Range, cpu: int) { r.low <= cpu <= r.high }

  predicate Covers(list: seq<Range>, cpu: int) {
    exists i :: 0 <= i < |list| && In(list[i], cpu)
  }

  /** Every CPU of `m` is one of `p`. */
  predicate Within(m: Range, p: Range) {
    m.low > m.high || (p.low <= m.low && m.high <= p.high)
  }

  // Merging.

  /** `cpuset_intersect`. */
  predicate Meets(a: Range, b: Range) {
    !(b.high < a.low) && !(b.low > a.high)
  }

  /** `merge_cpuset`: the base takes in a range that meets it. */
  method MergeCpuset(base: Range, delta: Range) returns (r: Range)
    ensures r == Merge(base, delta)
  {
    var low, high := base.low, base.high;
    if delta.high < low { return Range(low, high); }
    if delta.low > high { return Range(low, high); }
    if delta.low < low { low := delta.low; }
    if delta.high > high { high := delta.high; }
    return Range(low, high);
  }

  function Merge(base: Range, delta: Range): (r: Range)
    ensures forall cpu :: In(r, cpu) <==> In(base, cpu) || (Meets(base, delta) && In(delta, cpu))
  {
    if Meets(base, delta) then
      Range(if delta.low < base.low then delta.low else base.low, if delta.high > base.high then delta.high else base.high)
    else base
  }

  function Grow(base: Range, ds: seq<Range>): Range
    decreases |ds|
  {
    if ds == [] then base else Grow(Merge(base, ds[0]), ds[1..])
  }

  function GrowAll(list: seq<Range>, ds: seq<Range>): (r: seq<Range>)
    ensures |r| == |list| && forall i :: 0 <= i < |r| ==> r[i] == Grow(list[i], ds)
  {
    if list == [] then [] else [Grow(list[0], ds)] + GrowAll(list[1..], ds)
  }

  predicate AnyMeets(parts: seq<Range>, d: Range) {
    exists i :: 0 <= i < |parts| && Meets(parts[i], d)
  }

  function AddRest(parts: seq<Range>, ds: seq<Range>): seq<Range>
    decreases |ds|
  {
    if ds == [] then parts
    else AddRest(if AnyMeets(parts, ds[0]) then parts else parts + [ds[0]], ds[1..])
  }

  function Merged(list: seq<Range>, ds: seq<Range>): seq<Range> {
    AddRest(GrowAll(list, ds), ds)
  }

  /** The first loop of `merge_cpusets`: every range of the first list grows over the second. */
  method GrowRanges(list: seq<Range>, ds: seq<Range>) returns (parts: seq<Range>)
    ensures parts == GrowAll(list, ds)
  {
    parts := [];
    for i := 0 to |list|
      invariant parts == GrowAll(list, ds)[..i]
    {
      var base := GrowOne(list[i], ds);
      parts := parts + [base];
    }
  }

  method GrowOne(p: Range, ds: seq<Range>) returns (base: Range)
    ensures base == Grow(p, ds)
  {
    base := p;
    assert ds[0..] == ds;
    for k := 0 to |ds|
      invariant Grow(base, ds[k..]) == Grow(p, ds)
    {
      assert ds[k..][1..] == ds[k + 1..];
      base := MergeCpuset(base, ds[k]);
    }
  }

  /** The second loop: a range of the second list that meets nothing so far is added. */
  method AppendRest(grown: seq<Range>, ds: seq<Range>) returns (parts: seq<Range>)
    ensures parts == AddRest(grown, ds)
  {
    parts := grown;
    assert ds[0..] == ds;
    for k := 0 to |ds|
      invariant AddRest(parts, ds[k..]) == AddRest(grown, ds)
    {
      assert ds[k..][1..] == ds[k + 1..];
      var intersected := MeetsOne(parts, ds[k]);
      if !intersected { parts := parts + [ds[k]]; }
    }
  }

  method MeetsOne(parts: seq<Range>, d: Range) returns (intersected: bool)
    ensures intersected == AnyMeets(parts, d)
  {
    intersected := false;
    for i := 0 to |parts|
      invariant intersected <==> exists j :: 0 <= j < i && Meets(parts[j], d)
    {
      intersected := intersected || Meets(d, parts[i]);
    }
  }

  lemma {:induction false} GrowBounds(base: Range, ds: seq<Range>, cpu: int)
    ensures In(base, cpu) ==> In(Grow(base, ds), cpu)
    ensures In(Grow(base, ds), cpu) ==> In(base, cpu) || Covers(ds, cpu)
    decreases |ds|
  {
    if ds != [] {
      GrowBounds(Merge(base, ds[0]), ds[1..], cpu);
      CoversTail(ds, cpu);
    }
  }

  lemma {:induction false} CoversTail(ds: seq<Range>, cpu: int)
    requires ds != []
    ensures Covers(ds, cpu) <==> In(ds[0], cpu) || Covers(ds[1..], cpu)
  {
    if Covers(ds[1..], cpu) {
      var i :| 0 <= i < |ds[1..]| && In(ds[1..][i], cpu);
      assert In(ds[i + 1], cpu);
    }
    if Covers(ds, cpu) && !In(ds[0], cpu) {
      var i :| 0 <= i < |ds| && In(ds[i], cpu);
      assert In(ds[1..][i - 1], cpu);
    }
  }

  lemma {:induction false} RestBounds(parts: seq<Range>, ds: seq<Range>, cpu: int)
    ensures Covers(parts, cpu) ==> Covers(AddRest(parts, ds), cpu)
    ensures Covers(AddRest(parts, ds), cpu) ==> Covers(parts, cpu) || Covers(ds, cpu)
    decreases |ds|
  {
    if ds != [] {
      var more := parts + [ds[0]];
      RestBounds(if AnyMeets(parts, ds[0]) then parts else more, ds[1..], cpu);
      CoversTail(ds, cpu);
      CoversAppended(parts, ds[0], cpu);
    }
  }

  lemma {:induction false} CoversAppended(parts: seq<Range>, d: Range, cpu: int)
    ensures Covers(parts + [d], cpu) <==> Covers(parts, cpu) || In(d, cpu)
  {
    var more := parts + [d];
    if Covers(parts, cpu) {
      var i :| 0 <= i < |parts| && In(parts[i], cpu);
      assert In(more[i], cpu);
    }
    if In(d, cpu) { assert In(more[|parts|], cpu); }
  }

  lemma {:induction false} GrowAllBounds(list: seq<Range>, ds: seq<Range>, cpu: int)
    ensures Covers(list, cpu) ==> Covers(GrowAll(list, ds), cpu)
    ensures Covers(GrowAll(list, ds), cpu) ==> Covers(list, cpu) || Covers(ds, cpu)
  {
    forall i | 0 <= i < |list|
      ensures In(list[i], cpu) ==> In(GrowAll(list, ds)[i], cpu)
      ensures In(GrowAll(list, ds)[i], cpu) ==> In(list[i], cpu) || Covers(ds, cpu)
    {
      GrowBounds(list[i], ds, cpu);
    }
  }

  /** For any two lists, the merge has every CPU of the first and none that is in neither. */
  lemma {:induction false} MergeInventsNothing(list: seq<Range>, ds: seq<Range>, cpu: int)
    ensures Covers(list, cpu) ==> Covers(Merged(list, ds), cpu)
    ensures Covers(Merged(list, ds), cpu) ==> Covers(list, cpu) || Covers(ds, cpu)
  {
    GrowAllBounds(list, ds, cpu);
    RestBounds(GrowAll(list, ds), ds, cpu);
  }

  /** A range that meets an earlier one lies within it. Disjoint ranges are like that. */
  predicate Nested(ds: seq<Range>) {
    forall i, j :: 0 <= i < j < |ds| && Meets(ds[i], ds[j]) ==> Within(ds[j], ds[i])
  }

  /** `p` holds every range of `ds` that it meets. */
  predicate Holds(p: Range, ds: seq<Range>) {
    forall j :: 0 <= j < |ds| && Meets(p, ds[j]) ==> Within(ds[j], p)
  }

  /** A base that does not meet `d` never grows to meet it, if whatever meets `d` lies within it. */
  lemma {:induction false} StaysApart(base: Range, ds: seq<Range>, d: Range)
    requires d.low <= d.high && !Meets(base, d) && Holds(d, ds)
    ensures !Meets(Grow(base, ds), d)
    decreases |ds|
  {
    if ds != [] {
      assert Meets(d, ds[0]) ==> Within(ds[0], d);
      OneStepApart(base, ds[0], d);
      forall j | 0 <= j < |ds[1..]| && Meets(d, ds[1..][j]) ensures Within(ds[1..][j], d) {
        assert ds[1..][j] == ds[j + 1];
      }
      StaysApart(Merge(base, ds[0]), ds[1..], d);
    }
  }

  lemma {:induction false} OneStepApart(base: Range, m: Range, d: Range)
    requires d.low <= d.high && !Meets(base, d)
    requires Meets(d, m) ==> Within(m, d)
    ensures !Meets(Merge(base, m), d)
  {}

  lemma {:induction false} GrownHolds(base: Range, ds: seq<Range>, j: nat)
    requires Nested(ds) && j < |ds| && Meets(Grow(base, ds), ds[j])
    ensures Within(ds[j], Grow(base, ds))
    decreases |ds|
  {
    var d := ds[j];
    if d.low <= d.high {
      if j > 0 {
        NestedTail(ds);
        assert ds[1..][j - 1] == d;
        GrownHolds(Merge(base, ds[0]), ds[1..], j - 1);
      } else if Meets(base, d) {
        var next := Merge(base, d);
        GrowBounds(next, ds[1..], d.low);
        GrowBounds(next, ds[1..], d.high);
      } else {
        forall i | 0 <= i < |ds[1..]| && Meets(d, ds[1..][i]) ensures Within(ds[1..][i], d) {
          assert ds[1..][i] == ds[i + 1];
        }
        StaysApart(base, ds[1..], d);
      }
    }
  }

  lemma {:induction false} NestedTail(ds: seq<Range>)
    requires ds != [] && Nested(ds)
    ensures Nested(ds[1..]) && Holds(ds[0], ds[1..])
  {
    forall i, j | 0 <= i < j < |ds[1..]| && Meets(ds[1..][i], ds[1..][j]) ensures Within(ds[1..][j], ds[1..][i]) {
      assert ds[1..][i] == ds[i + 1] && ds[1..][j] == ds[j + 1];
    }
    forall j | 0 <= j < |ds[1..]| && Meets(ds[0], ds[1..][j]) ensures Within(ds[1..][j], ds[0]) {
      assert ds[1..][j] == ds[j + 1];
    }
  }

  lemma {:induction false} RestIsAdded(parts: seq<Range>, ds: seq<Range>, cpu: int)
    requires Nested(ds) && Covers(ds, cpu)
    requires forall i :: 0 <= i < |parts| ==> Holds(parts[i], ds)
    ensures Covers(AddRest(parts, ds), cpu)
    decreases |ds|
  {
    var d, rest := ds[0], ds[1..];
    var next := if AnyMeets(parts, d) then parts else parts + [d];
    CoversTail(ds, cpu);
    NestedTail(ds);
    if In(d, cpu) {
      if AnyMeets(parts, d) {
        var i :| 0 <= i < |parts| && Meets(parts[i], d);
        assert Holds(parts[i], ds);
        assert In(parts[i], cpu);
      } else {
        CoversAppended(parts, d, cpu);
      }
      RestBounds(next, rest, cpu);
    } else {
      forall i | 0 <= i < |next| ensures Holds(next[i], rest) {
        if i < |parts| { HoldsTail(parts[i], ds); }
      }
      RestIsAdded(next, rest, cpu);
    }
  }

  lemma {:induction false} HoldsTail(p: Range, ds: seq<Range>)
    requires ds != [] && Holds(p, ds)
    ensures Holds(p, ds[1..])
  {
    forall j | 0 <= j < |ds[1..]| && Meets(p, ds[1..][j]) ensures Within(ds[1..][j], p) {
      assert ds[1..][j] == ds[j + 1];
    }
  }

  /** If the second list's ranges are nested, in particular if they are disjoint, the merge denotes
      exactly the union. */
  lemma {:induction false} MergeIsUnion(list: seq<Range>, ds: seq<Range>, cpu: int)
    requires Nested(ds)
    ensures Covers(Merged(list, ds), cpu) <==> Covers(list, cpu) || Covers(ds, cpu)
  {
    MergeInventsNothing(list, ds, cpu);
    var parts := GrowAll(list, ds);
    forall i | 0 <= i < |parts| ensures Holds(parts[i], ds) {
      forall j | 0 <= j < |ds| && Meets(parts[i], ds[j]) ensures Within(ds[j], parts[i]) {
        GrownHolds(list[i], ds, j);
      }
    }
    if Covers(ds, cpu) { RestIsAdded(parts, ds, cpu); }
  }

  predicate UnionAt(list: seq<Range>, ds: seq<Range>, cpu: int) {
    Covers(Merged(list, ds), cpu) <==> Covers(list, cpu) || Covers(ds, cpu)
  }

  ghost predicate AlwaysUnion(ds: seq<Range>) {
    forall list: seq<Range>, cpu: int :: UnionAt(list, ds, cpu)
  }

  lemma {:induction false} NestedIsUnion(ds: seq<Range>)
    requires Nested(ds)
    ensures AlwaysUnion(ds)
  {
    forall list: seq<Range>, cpu: int ensures UnionAt(list, ds, cpu) {
      MergeIsUnion(list, ds, cpu);
    }
  }

  /** With two ranges, the merge is the union for every first list exactly when they are nested. */
  lemma {:induction false} TwoRanges(a: Range, b: Range)
    ensures AlwaysUnion([a, b]) <==> Nested([a, b])
  {
    var ds := [a, b];
    if Nested(ds) {
      NestedIsUnion(ds);
    } else {
      assert Meets(a, b) && !Within(b, a);
      var cpu := if In(a, b.low) then b.high else b.low;
      assert In(b, cpu) && !In(a, cpu);
      assert ds[1] == b && Covers(ds, cpu);
      FirstOnly(a, b);
      assert !Covers([a], cpu) && !Covers([], cpu);
      assert !UnionAt([], ds, cpu);
    }
  }

  lemma {:induction false} FirstOnly(a: Range, b: Range)
    requires Meets(a, b)
    ensures Merged([], [a, b]) == [a]
  {
    var ds := [a, b];
    assert ds[1..] == [b] && [b][1..] == [] && [] + [a] == [a];
    assert AnyMeets([a], b) by { assert Meets([a][0], b); }
    assert AddRest([], ds) == AddRest([a], [b]);
  }

  // Text.

  predicate Space(c: char) {
    var n := c as int;
    9 <= n <= 13 || n == 0x20 || n == 0x85 || n == 0xa0 || n == 0x1680 || 0x2000 <= n <= 0x200a
    || n == 0x2028 || n == 0x2029 || n == 0x202f || n == 0x205f || n == 0x3000
  }

  function TrimStart(s: string): (t: string)
    ensures |t| <= |s|
  {
    if s != [] && Space(s[0]) then TrimStart(s[1..]) else s
  }

  function Trim(s: string): string
    decreases |s|
  {
    var t := TrimStart(s);
    if t != [] && Space(t[|t| - 1]) then Trim(t[..|t| - 1]) else t
  }

  function ParseU32(s: string): Option<U32> { ParseUnsigned(s, U32_MAX) }

  function Split(s: string, sep: char): (r: seq<string>)
    ensures r != []
  {
    if s == [] then [""]
    else
      var r := Split(s[1..], sep);
      if s[0] == sep then [""] + r else [[s[0]] + r[0]] + r[1..]
  }

  /** `cpuset_one_part`: of three or more dashed numbers only the first is read. */
  function ParseOne(s: string): Option<Range> {
    var parts := Split(s, '-');
    match ParseU32(Trim(parts[0]))
    case None => None
    case Some(low) =>
      if |parts| == 2 then
        (match ParseU32(Trim(parts[1]))
         case None => None
         case Some(high) => Some(Range(low, high)))
      else Some(Range(low, low))
  }

  function ParseAll(parts: seq<string>): Option<seq<Range>> {
    if parts == [] then Some([])
    else match ParseOne(parts[0])
      case Some(r) => Prepend([r], ParseAll(parts[1..]))
      case None => None
  }

  function Prepend(list: seq<Range>, rest: Option<seq<Range>>): Option<seq<Range>> {
    if rest.Some? then Some(list + rest.value) else None
  }

  lemma {:induction false} PrependTwo(list: seq<Range>, r: Range, rest: Option<seq<Range>>)
    ensures Prepend(list, Prepend([r], rest)) == Prepend(list + [r], rest)
  {
    if rest.Some? { assert list + ([r] + rest.value) == list + [r] + rest.value; }
  }

  function Parse(s: string): Option<seq<Range>> {
    if Trim(s) == [] then Some([]) else ParseAll(Split(s, ','))
  }

  /** `cpuset_parts`. */
  method CpusetParts(s: string) returns (r: Option<seq<Range>>)
    ensures r == Parse(s)
  {
    if Trim(s) == [] { return Some([]); }
    var parts := Split(s, ',');
    var list: seq<Range> := [];
    assert parts[0..] == parts;
    ghost var all := ParseAll(parts);
    assert all.Some? ==> [] + all.value == all.value;
    for i := 0 to |parts|
      invariant all == Prepend(list, ParseAll(parts[i..]))
    {
      assert parts[i..][1..] == parts[i + 1..];
      var one := ParseOne(parts[i]);
      if one.None? { return None; }
      PrependTwo(list, one.value, ParseAll(parts[i + 1..]));
      list := list + [one.value];
    }
    assert list + [] == list;
    return Some(list);
  }

  /** `cpuset_tostring`. */
  function PrintOne(r: Range): string {
    if r.low == r.high then PrintNat(r.low) else PrintNat(r.low) + "-" + PrintNat(r.high)
  }

  function Print(list: seq<Range>): string {
    if list == [] then ""
    else if |list| == 1 then PrintOne(list[0])
    else PrintOne(list[0]) + "," + Print(list[1..])
  }

  // Printing then parsing.

  lemma {:induction false} NoSpaceTrim(s: string)
    requires forall i :: 0 <= i < |s| ==> !Space(s[i])
    ensures Trim(s) == s
  {}

  lemma {:induction false} NumberRoundTrip(n: U32)
    ensures ParseU32(Trim(PrintNat(n))) == Some(n)
  {
    NoSpaceTrim(PrintNat(n));
  }

  lemma {:induction false} SplitNone(a: string, sep: char)
    requires sep !in a
    ensures Split(a, sep) == [a]
  {
    if a != [] {
      SplitNone(a[1..], sep);
      assert [a[0]] + a[1..] == a;
    }
  }

  lemma {:induction false} SplitFirst(a: string, sep: char, b: string)
    requires sep !in a
    ensures Split(a + [sep] + b, sep) == [a] + Split(b, sep)
  {
    var s := a + [sep] + b;
    if a == [] {
      assert s[1..] == b;
    } else {
      assert s[1..] == a[1..] + [sep] + b;
      SplitFirst(a[1..], sep, b);
      assert ([a[1..]] + Split(b, sep))[1..] == Split(b, sep);
      assert [a[0]] + a[1..] == a;
    }
  }

  lemma {:induction false} OneRoundTrip(r: Range)
    ensures ParseOne(PrintOne(r)) == Some(r)
  {
    var l, h := PrintNat(r.low), PrintNat(r.high);
    NumberRoundTrip(r.low);
    NumberRoundTrip(r.high);
    assert '-' !in l && '-' !in h;
    if r.low == r.high {
      SplitNone(l, '-');
    } else {
      assert "-" == ['-'];
      SplitFirst(l, '-', h);
      SplitNone(h, '-');
    }
  }

  predicate Plain(s: string) {
    forall i :: 0 <= i < |s| ==> Digit(s[i]) || s[i] == '-'
  }

  lemma {:induction false} OneIsPlain(r: Range)
    ensures Plain(PrintOne(r)) && PrintOne(r) != [] && Digit(PrintOne(r)[0])
  {}

  lemma {:induction false} ListRoundTrip(list: seq<Range>)
    requires list != []
    ensures ParseAll(Split(Print(list), ',')) == Some(list)
    ensures Print(list) != [] && Digit(Print(list)[0])
  {
    var first := PrintOne(list[0]);
    OneIsPlain(list[0]);
    OneRoundTrip(list[0]);
    assert ',' !in first;
    if |list| == 1 {
      SplitNone(first, ',');
      assert [first][1..] == [] && [list[0]] + [] == list;
    } else {
      ListRoundTrip(list[1..]);
      assert "," == [','];
      SplitFirst(first, ',', Print(list[1..]));
      assert ([first] + Split(Print(list[1..]), ','))[1..] == Split(Print(list[1..]), ',');
      assert [list[0]] + list[1..] == list;
    }
  }

  lemma {:induction false} NotBlank(s: string, i: nat)
    requires i < |s| && !Space(s[i])
    ensures Trim(s) != []
    decreases |s|
  {
    var k := StartKeeps(s, i);
    var t := TrimStart(s);
    if Space(t[|t| - 1]) {
      assert t[..|t| - 1][k] == t[k];
      NotBlank(t[..|t| - 1], k);
    }
  }

  lemma {:induction false} StartKeeps(s: string, i: nat) returns (k: nat)
    requires i < |s| && !Space(s[i])
    ensures k < |TrimStart(s)| && !Space(TrimStart(s)[k])
  {
    if Space(s[0]) {
      k := StartKeeps(s[1..], i - 1);
    } else {
      k := 0;
    }
  }

  /** Printing any list of ranges and parsing the text gives the list back. */
  lemma {:induction false} PrintThenParse(list: seq<Range>)
    ensures Parse(Print(list)) == Some(list)
  {
    if list != [] {
      ListRoundTrip(list);
      NotBlank(Print(list), 0);
    }
  }

  /** `merge_cpusets` on text: it fails exactly when one of its arguments does not parse. What it
      returns parses, and denotes the union of the two sets if the second is nested. */
  method MergeCpusets(s1: string, s2: string) returns (r: Option<string>)
    ensures r.Some? <==> Parse(s1).Some? && Parse(s2).Some?
    ensures r.Some? ==> Parse(r.value) == Some(Merged(Parse(s1).value, Parse(s2).value))
    ensures r.Some? && Nested(Parse(s2).value) ==>
              forall cpu :: Covers(Parse(r.value).value, cpu) <==> Covers(Parse(s1).value, cpu) || Covers(Parse(s2).value, cpu)
  {
    var list := CpusetParts(s1);
    if list.None? { return None; }
    var ds := CpusetParts(s2);
    if ds.None? { return None; }
    var grown := GrowRanges(list.value, ds.value);
    var parts := AppendRest(grown, ds.value);
    PrintThenParse(parts);
    if Nested(ds.value) {
      forall cpu ensures Covers(parts, cpu) <==> Covers(list.value, cpu) || Covers(ds.value, cpu) {
        MergeIsUnion(list.value, ds.value, cpu);
      }
    }
    return Some(Print(parts));
  }

  /** Merging `0-2,1-5` into an empty list loses CPUs 3 to 5. */
  lemma {:induction false} OverlapLosesCpus()
    ensures Merged([], [Range(0, 2), Range(1, 5)]) == [Range(0, 2)]
    ensures Covers([Range(0, 2), Range(1, 5)], 4) && !Covers([Range(0, 2)], 4)
  {
    FirstOnly(Range(0, 2), Range(1, 5));
    assert In([Range(0, 2), Range(1, 5)][1], 4);
  }
}
