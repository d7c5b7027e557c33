/** Storage mounted in the guest on behalf of containers: shared by key, counted per container, and
    unmounted when the last container that refers to it is gone.
 */
module Storages {
  import opened Basics
  import opened Wrappers

  datatype Key = Key(hostSource: string, typ: string, mountPoint: string)
  datatype Storage = Storage(key: Key, driver: string, refs: map<string, nat>)

  /** Some container refers to it: its reference count is not zero. */
  predicate Live(s: Storage) {
    exists c :: c in s.refs && s.refs[c] > 0
  }

  function Refer(s: Storage, c: string): Storage {
    s.(refs := s.refs[c := if c in s.refs then s.refs[c] + 1 else 1])
  }

  function Defer(s: Storage, c: string): Storage {
    s.(refs := s.refs - {c})
  }

  /** `ref_count`, adding the counts up in whatever order the map gives them. */
  method RefCount(s: Storage) returns (n: nat)
    ensures n == 0 <==> !Live(s)
    ensures forall c :: c in s.refs ==> s.refs[c] <= n
  {
    var todo := s.refs.Keys;
    n := 0;
    while todo != {}
      invariant todo <= s.refs.Keys
      invariant n == 0 <==> forall c :: c in s.refs && c !in todo ==> s.refs[c] == 0
      invariant forall c :: c in s.refs && c !in todo ==> s.refs[c] <= n
      decreases |todo|
    {
      var c :| c in todo;
      n, todo := n + s.refs[c], todo - {c};
    }
  }

  const DRIVERS := ["scsi", "ephemeral", "blk"]

  datatype Outcome = Added | MountFailed | Unsupported

  /** The first entry with this key, or the number of entries. */
  function Find(entries: seq<Storage>, key: Key): (i: nat)
    ensures i <= |entries|
    ensures i < |entries| ==> entries[i].key == key
    ensures forall j :: 0 <= j < i ==> entries[j].key != key
  {
    if entries == [] || entries[0].key == key then 0 else 1 + Find(entries[1..], key)
  }

  /** What one add does to the entries and to the guest's mounts; `works` is the fate of a mount. */
  datatype State = State(entries: seq<Storage>, mounts: multiset<Key>)

  function Add(st: State, c: string, s: Storage, works: bool): (State, Outcome) {
    var i := Find(st.entries, s.key);
    if i < |st.entries| then (st.(entries := st.entries[i := Refer(st.entries[i], c)]), Added)
    else if s.driver !in DRIVERS then (st, Unsupported)
    else if !works then (st, MountFailed)
    else (State(st.entries + [s], st.mounts + multiset{s.key}), Added)
  }

  /** Several adds for one container, up to the first that fails; the earlier ones stay. */
  function AddAll(st: State, c: string, list: seq<Storage>, works: seq<bool>): (State, Outcome)
    requires |works| == |list|
    decreases |list|
  {
    if list == [] then (st, Added)
    else
      var (next, r) := Add(st, c, list[0], works[0]);
      if r == Added then AddAll(next, c, list[1..], works[1..]) else (next, r)
  }

  function DeferAll(entries: seq<Storage>, c: string): (r: seq<Storage>)
    ensures |r| == |entries| && forall i :: 0 <= i < |r| ==> r[i] == Defer(entries[i], c)
  {
    if entries == [] then [] else [Defer(entries[0], c)] + DeferAll(entries[1..], c)
  }

  function Kept(entries: seq<Storage>): seq<Storage> {
    if entries == [] then []
    else (if Live(entries[0]) then [entries[0]] else []) + Kept(entries[1..])
  }

  function Dropped(entries: seq<Storage>): seq<Storage> {
    if entries == [] then []
    else (if Live(entries[0]) then [] else [entries[0]]) + Dropped(entries[1..])
  }

  /** The mounts left when the dropped entries are unmounted, except those that will not go. */
  function Unmount(mounts: multiset<Key>, dropped: seq<Storage>, stuck: set<Key>): multiset<Key> {
    if dropped == [] then mounts
    else Unmount(if dropped[0].key in stuck then mounts else mounts - multiset{dropped[0].key}, dropped[1..], stuck)
  }

  function Release(st: State, c: string, stuck: set<Key>): State {
    var entries := DeferAll(st.entries, c);
    State(Kept(entries), Unmount(st.mounts, Dropped(entries), stuck))
  }

  class SandboxResources {
    var storages: seq<Storage>
    var mounts: multiset<Key>

    function Contents(): State
      reads this
    {
      State(storages, mounts)
    }

    constructor ()
      ensures Contents() == State([], multiset{})
    {
      storages, mounts := [], multiset{};
    }

    /** `add_storage`. */
    method AddStorage(c: string, s: Storage, works: bool) returns (r: Outcome)
      modifies this
      ensures (Contents(), r) == Add(old(Contents()), c, s, works)
    {
      var i := 0;
      while i < |storages|
        invariant 0 <= i <= |storages| && Contents() == old(Contents())
        invariant forall j :: 0 <= j < i ==> storages[j].key != s.key
      {
        if storages[i].key == s.key {
          assert Find(storages, s.key) == i;
          storages := storages[i := Refer(storages[i], c)];
          return Added;
        }
        i := i + 1;
      }
      assert Find(storages, s.key) == |storages|;
      if s.driver !in DRIVERS { return Unsupported; }
      if !works { return MountFailed; }
      mounts := mounts + multiset{s.key};
      storages := storages + [s];
      return Added;
    }

    /** `add_storages`. */
    method AddStorages(c: string, list: seq<Storage>, works: seq<bool>) returns (r: Outcome)
      requires |works| == |list|
      modifies this
      ensures (Contents(), r) == AddAll(old(Contents()), c, list, works)
    {
      var i := 0;
      while i < |list|
        invariant 0 <= i <= |list|
        invariant AddAll(Contents(), c, list[i..], works[i..]) == AddAll(old(Contents()), c, list, works)
      {
        assert list[i..][1..] == list[i + 1..] && works[i..][1..] == works[i + 1..];
        r := AddStorage(c, list[i], works[i]);
        if r != Added { return; }
        i := i + 1;
      }
      return Added;
    }

    /** `defer_storages` with `gc_storages`. */
    method DeferStorages(c: string, stuck: set<Key>)
      modifies this
      ensures Contents() == Release(old(Contents()), c, stuck)
    {
      for i := 0 to |storages|
        invariant |storages| == |old(storages)| && mounts == old(mounts)
        invariant forall j :: 0 <= j < i ==> storages[j] == Defer(old(storages)[j], c)
        invariant forall j :: i <= j < |storages| ==> storages[j] == old(storages)[j]
      {
        storages := storages[i := Defer(storages[i], c)];
      }
      assert storages == DeferAll(old(storages), c);
      var removed := Retain();
      var k := 0;
      while k < |removed|
        invariant 0 <= k <= |removed|
        invariant storages == Kept(DeferAll(old(storages), c))
        invariant Unmount(mounts, removed[k..], stuck) == Unmount(old(mounts), removed, stuck)
      {
        assert removed[k..][1..] == removed[k + 1..];
        if removed[k].key !in stuck { mounts := mounts - multiset{removed[k].key}; }
        k := k + 1;
      }
    }

    /** Takes out the entries nobody refers to. */
    method Retain() returns (removed: seq<Storage>)
      modifies this`storages
      ensures storages == Kept(old(storages)) && removed == Dropped(old(storages))
    {
      var kept: seq<Storage> := [];
      removed := [];
      var i := 0;
      while i < |storages|
        invariant 0 <= i <= |storages| && storages == old(storages)
        invariant kept + Kept(storages[i..]) == Kept(storages)
        invariant removed + Dropped(storages[i..]) == Dropped(storages)
      {
        var n := RefCount(storages[i]);
        var x := storages[i];
        assert storages[i..][0] == x && storages[i..][1..] == storages[i + 1..];
        Cat(kept, [x], Kept(storages[i + 1..]));
        Cat(removed, [x], Dropped(storages[i + 1..]));
        if n == 0 { removed := removed + [x]; } else { kept := kept + [x]; }
        i := i + 1;
      }
      assert kept + [] == kept && removed + [] == removed;
      storages := kept;
    }
  }

  // What the entries say about every key.

  predicate Has(entries: seq<Storage>, key: Key) {
    exists i :: 0 <= i < |entries| && entries[i].key == key
  }

  function RefsOf(entries: seq<Storage>, key: Key): map<string, nat> {
    if entries == [] then map[]
    else if entries[0].key == key then entries[0].refs
    else RefsOf(entries[1..], key)
  }

  function CountIn(refs: map<string, nat>, c: string): nat {
    if c in refs then refs[c] else 0
  }

  predicate AnyRef(refs: map<string, nat>) {
    exists c :: c in refs && refs[c] > 0
  }

  predicate Unique(entries: seq<Storage>) {
    forall i, j :: 0 <= i < j < |entries| ==> entries[i].key != entries[j].key
  }

  lemma {:induction false} HasTail(entries: seq<Storage>, key: Key)
    requires entries != []
    ensures Has(entries, key) <==> entries[0].key == key || Has(entries[1..], key)
  {
    if Has(entries[1..], key) {
      var i :| 0 <= i < |entries[1..]| && entries[1..][i].key == key;
      assert entries[i + 1].key == key;
    }
    if Has(entries, key) && entries[0].key != key {
      var i :| 0 <= i < |entries| && entries[i].key == key;
      assert entries[1..][i - 1].key == key;
    }
  }

  lemma {:induction false} RefsOfMissing(entries: seq<Storage>, key: Key)
    requires !Has(entries, key)
    ensures RefsOf(entries, key) == map[]
  {
    if entries != [] {
      HasTail(entries, key);
      RefsOfMissing(entries[1..], key);
    }
  }

  lemma {:induction false} RefsOfAt(entries: seq<Storage>, i: nat)
    requires i < |entries| && Unique(entries)
    ensures RefsOf(entries, entries[i].key) == entries[i].refs
  {
    if i > 0 {
      assert entries[0].key != entries[i].key;
      assert entries[1..][i - 1] == entries[i];
      RefsOfAt(entries[1..], i - 1);
    }
  }

  // Adding.

  lemma {:induction false} RefsAppended(entries: seq<Storage>, s: Storage, key: Key)
    requires !Has(entries, s.key)
    ensures RefsOf(entries + [s], key) == if key == s.key then s.refs else RefsOf(entries, key)
  {
    if entries == [] {
      assert (entries + [s])[1..] == [];
    } else {
      assert (entries + [s])[1..] == entries[1..] + [s];
      HasTail(entries, s.key);
      RefsAppended(entries[1..], s, key);
    }
  }

  lemma {:induction false} RefsReplaced(entries: seq<Storage>, i: nat, s: Storage, key: Key)
    requires i < |entries| && Unique(entries) && s.key == entries[i].key
    ensures RefsOf(entries[i := s], key) == if key == s.key then s.refs else RefsOf(entries, key)
  {
    var after := entries[i := s];
    if i > 0 {
      assert entries[0].key != s.key;
      assert entries[1..][i - 1] == entries[i] && after[1..] == entries[1..][i - 1 := s];
      RefsReplaced(entries[1..], i - 1, s, key);
    } else {
      assert after[1..] == entries[1..];
    }
  }

  /** An add succeeds exactly if the key is there, or its driver is known and the mount works; a failed
      add changes nothing; keys stay unique, and only the key added can be new. */
  lemma {:induction false} AddOutcome(st: State, c: string, s: Storage, works: bool, key: Key)
    requires Unique(st.entries)
    ensures var (after, r) := Add(st, c, s, works);
            && (r != Added ==> after == st)
            && (r == Added <==> Has(st.entries, s.key) || (s.driver in DRIVERS && works))
            && Unique(after.entries)
            && (Has(after.entries, key) <==> Has(st.entries, key) || (r == Added && key == s.key))
  {
    var i := Find(st.entries, s.key);
    var after := Add(st, c, s, works).0.entries;
    if i < |st.entries| {
      assert forall j :: 0 <= j < |after| ==> after[j].key == st.entries[j].key;
    } else if Add(st, c, s, works).1 == Added {
      assert after[|st.entries|] == s;
      assert forall j :: 0 <= j < |st.entries| ==> after[j] == st.entries[j];
    }
  }

  /** A successful add counts one more reference of one container to a key that is there; a new entry
      starts from the references its storage arrives with, whatever they are. Only a new key is
      mounted. */
  lemma {:induction false} AddedRefs(st: State, c: string, s: Storage, works: bool, key: Key)
    requires Unique(st.entries) && Add(st, c, s, works).1 == Added
    ensures var was, there := RefsOf(st.entries, key), Has(st.entries, s.key);
            && (RefsOf(Add(st, c, s, works).0.entries, key) ==
                  if key != s.key then was else if there then was[c := CountIn(was, c) + 1] else s.refs)
            && Add(st, c, s, works).0.mounts == if there then st.mounts else st.mounts + multiset{s.key}
  {
    var i := Find(st.entries, s.key);
    if i < |st.entries| {
      RefsReplaced(st.entries, i, Refer(st.entries[i], c), key);
      RefsOfAt(st.entries, i);
    } else {
      RefsAppended(st.entries, s, key);
    }
  }

  // Releasing.

  lemma {:induction false} RefsDeferred(entries: seq<Storage>, c: string, key: Key)
    ensures RefsOf(DeferAll(entries, c), key) == RefsOf(entries, key) - {c}
    ensures Has(DeferAll(entries, c), key) <==> Has(entries, key)
    ensures Unique(entries) ==> Unique(DeferAll(entries, c))
  {
    if entries != [] {
      RefsDeferred(entries[1..], c, key);
      HasTail(entries, key);
      HasTail(DeferAll(entries, c), key);
      assert DeferAll(entries, c)[1..] == DeferAll(entries[1..], c);
    }
  }

  /** The kept and the dropped entries are those of the list, told apart by `Live`. */
  lemma {:induction false} KeptAndDropped(entries: seq<Storage>, x: Storage)
    ensures x in Kept(entries) <==> x in entries && Live(x)
    ensures x in Dropped(entries) <==> x in entries && !Live(x)
  {
    if entries != [] {
      assert x in entries <==> x == entries[0] || x in entries[1..];
      KeptAndDropped(entries[1..], x);
    }
  }

  lemma {:induction false} StillUnique(entries: seq<Storage>)
    requires Unique(entries)
    ensures Unique(Kept(entries)) && Unique(Dropped(entries))
  {
    if entries != [] {
      StillUnique(entries[1..]);
      forall x | x in Kept(entries[1..]) || x in Dropped(entries[1..]) ensures x.key != entries[0].key {
        KeptAndDropped(entries[1..], x);
      }
    }
  }

  /** An entry is kept, with its references, if it has one, and dropped otherwise. */
  lemma {:induction false} KeptHas(entries: seq<Storage>, key: Key)
    requires Unique(entries)
    ensures Has(Kept(entries), key) <==> Has(entries, key) && AnyRef(RefsOf(entries, key))
    ensures Has(Dropped(entries), key) <==> Has(entries, key) && !AnyRef(RefsOf(entries, key))
    ensures RefsOf(Kept(entries), key) == if Has(Kept(entries), key) then RefsOf(entries, key) else map[]
  {
    if entries != [] {
      KeptHas(entries[1..], key);
      HasTail(entries, key);
      KeptHead(entries, key);
      if entries[0].key == key { assert !Has(entries[1..], key); }
    }
  }

  /** The first entry is kept or dropped, and the others are as they are without it. */
  lemma {:induction false} KeptHead(entries: seq<Storage>, key: Key)
    requires entries != []
    ensures var head, rest := entries[0], entries[1..];
            && (Has(Kept(entries), key) <==> (Live(head) && head.key == key) || Has(Kept(rest), key))
            && (Has(Dropped(entries), key) <==> (!Live(head) && head.key == key) || Has(Dropped(rest), key))
            && RefsOf(Kept(entries), key) == if Live(head) && head.key == key then head.refs else RefsOf(Kept(rest), key)
  {
    var rest := entries[1..];
    if Live(entries[0]) {
      assert Kept(entries)[1..] == Kept(rest) && Dropped(entries) == Dropped(rest);
      HasTail(Kept(entries), key);
    } else {
      assert Dropped(entries)[1..] == Dropped(rest) && Kept(entries) == Kept(rest);
      HasTail(Dropped(entries), key);
    }
  }

  /** A release takes the container out of every key's references, changes no other count, and keeps
      exactly the keys that still have a reference. */
  lemma {:induction false} ReleaseForgets(st: State, c: string, stuck: set<Key>, key: Key)
    requires Unique(st.entries)
    ensures var after := Release(st, c, stuck).entries;
            && Unique(after)
            && (Has(after, key) <==> Has(st.entries, key) && AnyRef(RefsOf(st.entries, key) - {c}))
            && (forall d :: CountIn(RefsOf(after, key), d) == if d == c then 0 else CountIn(RefsOf(st.entries, key), d))
  {
    var deferred := DeferAll(st.entries, c);
    RefsDeferred(st.entries, c, key);
    StillUnique(deferred);
    KeptHas(deferred, key);
    if !Has(st.entries, key) { RefsOfMissing(st.entries, key); }
    CountsLeft(RefsOf(st.entries, key), c);
  }

  /** Without `c`, the other counts are what they were, and zero if none is left. */
  lemma {:induction false} CountsLeft(refs: map<string, nat>, c: string)
    ensures forall d :: CountIn(refs - {c}, d) == if d == c then 0 else CountIn(refs, d)
    ensures !AnyRef(refs - {c}) ==> forall d :: CountIn(refs - {c}, d) == CountIn(map[], d)
  {}

  lemma {:induction false} UnmountCount(mounts: multiset<Key>, dropped: seq<Storage>, stuck: set<Key>, key: Key)
    requires Unique(dropped)
    ensures Unmount(mounts, dropped, stuck)[key] ==
            if Has(dropped, key) && key !in stuck && mounts[key] > 0 then mounts[key] - 1 else mounts[key]
  {
    if dropped != [] {
      var m := if dropped[0].key in stuck then mounts else mounts - multiset{dropped[0].key};
      UnmountCount(m, dropped[1..], stuck, key);
      HasTail(dropped, key);
    }
  }

  /** It unmounts the keys it drops, except those that will not go. */
  lemma {:induction false} ReleaseUnmounts(st: State, c: string, stuck: set<Key>, key: Key)
    requires Unique(st.entries) && (Has(st.entries, key) ==> st.mounts[key] > 0)
    ensures var after := Release(st, c, stuck);
            after.mounts[key] == st.mounts[key] - if Has(st.entries, key) && !Has(after.entries, key) && key !in stuck then 1 else 0
  {
    var deferred := DeferAll(st.entries, c);
    RefsDeferred(st.entries, c, key);
    StillUnique(deferred);
    KeptHas(deferred, key);
    UnmountCount(st.mounts, Dropped(deferred), stuck, key);
  }

  // Whole runs.

  datatype Op = AddOp(c: string, s: Storage, works: bool) | DeferOp(c: string, stuck: set<Key>)

  function Run(ops: seq<Op>): State {
    if ops == [] then State([], multiset{}) else Apply(Run(Front(ops)), Last(ops))
  }

  function Apply(st: State, op: Op): State {
    match op
    case AddOp(c, s, works) => Add(st, c, s, works).0
    case DeferOp(c, stuck) => Release(st, c, stuck)
  }

  function Front(ops: seq<Op>): seq<Op>
    requires ops != []
  {
    ops[..|ops| - 1]
  }

  function Last(ops: seq<Op>): Op
    requires ops != []
  {
    ops[|ops| - 1]
  }

  /** The last operation of the run gave `key` to a container. */
  predicate Gives(ops: seq<Op>, key: Key)
    requires ops != []
  {
    && Last(ops).AddOp? && Last(ops).s.key == key
    && Add(Run(Front(ops)), Last(ops).c, Last(ops).s, Last(ops).works).1 == Added
  }

  /** How many references to `key` container `c` is counted with, by the history alone: those its
      storage arrived with when its entry was made, plus its adds since, until it is released. */
  ghost function Counted(ops: seq<Op>, c: string, key: Key): nat
    decreases |ops|
  {
    if ops == [] then 0
    else
      var before := Counted(Front(ops), c, key);
      match Last(ops)
      case AddOp(d, s, _) =>
        if !Gives(ops, key) then before
        else if Present(Front(ops), key) then before + if c == d then 1 else 0
        else CountIn(s.refs, c)
      case DeferOp(d, _) => if d == c then 0 else before
  }

  /** A key is there from the add that makes its entry to the first release that leaves it without a
      counted reference. */
  ghost predicate Present(ops: seq<Op>, key: Key)
    decreases |ops|
  {
    if ops == [] then false
    else match Last(ops)
      case AddOp(_, _, _) => Present(Front(ops), key) || Gives(ops, key)
      case DeferOp(d, _) => Present(Front(ops), key) && exists c :: c != d && Counted(Front(ops), c, key) > 0
  }

  /** Some container other than `d` is counted. */
  ghost predicate CountedBut(ops: seq<Op>, d: string, key: Key) {
    exists c :: c != d && Counted(ops, c, key) > 0
  }

  lemma {:induction false} PresentAfterRelease(ops: seq<Op>, key: Key)
    requires ops != [] && Last(ops).DeferOp?
    ensures Present(ops, key) <==> Present(Front(ops), key) && CountedBut(Front(ops), Last(ops).c, key)
  {}

  lemma {:induction false} AnyOther(refs: map<string, nat>, d: string)
    ensures AnyRef(refs - {d}) <==> exists c :: c != d && CountIn(refs, c) > 0
  {
    if AnyRef(refs - {d}) {
      var c :| c in refs - {d} && (refs - {d})[c] > 0;
      assert c != d && CountIn(refs, c) > 0;
    }
    if c :| c != d && CountIn(refs, c) > 0 { assert c in refs - {d} && (refs - {d})[c] > 0; }
  }

  /** After every run, of any arrivals, there is one entry for each key that is present and none
      besides, and its counts are those of the history. */
  lemma {:induction false} EntriesAreCounted(ops: seq<Op>, key: Key)
    ensures Unique(Run(ops).entries)
    ensures Has(Run(ops).entries, key) <==> Present(ops, key)
    ensures forall c :: CountIn(RefsOf(Run(ops).entries, key), c) == Counted(ops, c, key)
  {
    if ops != [] {
      var st := Run(Front(ops));
      EntriesAreCounted(Front(ops), key);
      match Last(ops)
      case AddOp(d, s, works) =>
        AddOutcome(st, d, s, works, key);
        if Add(st, d, s, works).1 == Added { AddedRefs(st, d, s, works, key); }
      case DeferOp(d, stuck) =>
        ReleaseForgets(st, d, stuck, key);
        AnyOther(RefsOf(st.entries, key), d);
    }
  }

  lemma {:induction false} AbsentUncounted(ops: seq<Op>, c: string, key: Key)
    requires !Present(ops, key)
    ensures Counted(ops, c, key) == 0
  {
    EntriesAreCounted(ops, key);
    RefsOfMissing(Run(ops).entries, key);
    assert CountIn(RefsOf(Run(ops).entries, key), c) == Counted(ops, c, key);
  }

  /** How often a release that dropped `key` left it mounted. */
  ghost function Leaks(ops: seq<Op>, key: Key): nat {
    if ops == [] then 0
    else Leaks(Front(ops), key) +
         if Last(ops).DeferOp? && key in Last(ops).stuck && Present(Front(ops), key) && !Present(ops, key) then 1 else 0
  }

  /** After every run a key is mounted once if it is present, and once more for every release that left
      it mounted; so with no such release the mounts are exactly the entries. */
  lemma {:induction false} MountsAreEntries(ops: seq<Op>, key: Key)
    ensures Run(ops).mounts[key] == Leaks(ops, key) + if Present(ops, key) then 1 else 0
  {
    if ops != [] {
      var st := Run(Front(ops));
      MountsAreEntries(Front(ops), key);
      EntriesAreCounted(Front(ops), key);
      EntriesAreCounted(ops, key);
      match Last(ops)
      case AddOp(c, s, works) =>
        AddOutcome(st, c, s, works, key);
        if Add(st, c, s, works).1 == Added { AddedRefs(st, c, s, works, key); }
      case DeferOp(c, stuck) => ReleaseUnmounts(st, c, stuck, key);
    }
  }

  lemma {:induction false} OneMore(ops: seq<Op>, op: Op)
    ensures Front(ops + [op]) == ops && Last(ops + [op]) == op
  {}

  /** After a container is released, exactly the keys remain that are counted for another container. */
  lemma {:induction false} ReleaseKeepsOthers(ops: seq<Op>, d: string, stuck: set<Key>, key: Key)
    ensures Has(Run(ops + [DeferOp(d, stuck)]).entries, key) <==>
            Has(Run(ops).entries, key) && CountedBut(ops, d, key)
  {
    OneMore(ops, DeferOp(d, stuck));
    PresentAfterRelease(ops + [DeferOp(d, stuck)], key);
    EntriesAreCounted(ops + [DeferOp(d, stuck)], key);
    EntriesAreCounted(ops, key);
  }

  predicate OtherArrives(refs: map<string, nat>, d: string) {
    exists c :: c in refs && c != d && refs[c] > 0
  }

  /** A new entry survives the release of `d` if and only if its storage arrived with a reference of
      some other container. */
  lemma {:induction false} NewEntrySurvives(ops: seq<Op>, c: string, s: Storage, d: string, stuck: set<Key>)
    requires !Has(Run(ops).entries, s.key) && s.driver in DRIVERS
    ensures Has(Run(ops + [AddOp(c, s, true)] + [DeferOp(d, stuck)]).entries, s.key) <==> OtherArrives(s.refs, d)
  {
    var one := ops + [AddOp(c, s, true)];
    NewEntryCounts(ops, c, s);
    ReleaseKeepsOthers(one, d, stuck, s.key);
    if CountedBut(one, d, s.key) {
      var x :| x != d && Counted(one, x, s.key) > 0;
      assert x in s.refs && s.refs[x] > 0;
    }
    if OtherArrives(s.refs, d) {
      var x :| x in s.refs && x != d && s.refs[x] > 0;
      assert Counted(one, x, s.key) > 0;
    }
  }

  lemma {:induction false} NewEntryCounts(ops: seq<Op>, c: string, s: Storage)
    requires !Has(Run(ops).entries, s.key) && s.driver in DRIVERS
    ensures Has(Run(ops + [AddOp(c, s, true)]).entries, s.key)
    ensures forall x :: Counted(ops + [AddOp(c, s, true)], x, s.key) == CountIn(s.refs, x)
  {
    var one := ops + [AddOp(c, s, true)];
    OneMore(ops, AddOp(c, s, true));
    EntriesAreCounted(ops, s.key);
    EntriesAreCounted(one, s.key);
    AddOutcome(Run(ops), c, s, true, s.key);
  }

  // Counts and uses.

  /** How often container `c` has been given `key` since its storages were last released. */
  function Uses(ops: seq<Op>, c: string, key: Key): nat {
    if ops == [] then 0
    else
      var before := Uses(Front(ops), c, key);
      match Last(ops)
      case AddOp(d, _, _) => if d == c && Gives(ops, key) then before + 1 else before
      case DeferOp(d, _) => if d == c then 0 else before
  }

  /** A new entry counts every container's uses if and only if its storage arrives with just those. */
  lemma {:induction false} ArrivalAgrees(ops: seq<Op>, c: string, s: Storage, x: string)
    requires !Has(Run(ops).entries, s.key) && s.driver in DRIVERS
    ensures var one := ops + [AddOp(c, s, true)];
            Counted(one, x, s.key) == Uses(one, x, s.key) <==> CountIn(s.refs, x) == Uses(ops, x, s.key) + if x == c then 1 else 0
  {
    EntriesAreCounted(ops, s.key);
    NewEntryCounts(ops, c, s);
    OneMore(ops, AddOp(c, s, true));
    AddOutcome(Run(ops), c, s, true, s.key);
  }

  /** A storage that makes an entry arrives with references of its own container and of no other. */
  ghost predicate ArriveOwn(ops: seq<Op>) {
    ops == [] ||
    (&& ArriveOwn(Front(ops))
     && (Last(ops).AddOp? && !Present(Front(ops), Last(ops).s.key) ==>
           forall x :: CountIn(Last(ops).s.refs, x) > 0 <==> x == Last(ops).c))
  }

  ghost predicate Used(ops: seq<Op>, key: Key) {
    exists c :: Uses(ops, c, key) > 0
  }

  /** If storages arrive like that, with however many references, the containers counted are those that
      use the key, so that an entry is there exactly while some container uses it. */
  lemma {:induction false} PresentWhileUsed(ops: seq<Op>, key: Key)
    requires ArriveOwn(ops)
    ensures forall c :: Counted(ops, c, key) > 0 <==> Uses(ops, c, key) > 0
    ensures Present(ops, key) <==> Used(ops, key)
  {
    if ops != [] {
      var front := Front(ops);
      PresentWhileUsed(front, key);
      forall c ensures Counted(ops, c, key) > 0 <==> Uses(ops, c, key) > 0 {
        if !Present(front, key) { AbsentUncounted(front, c, key); }
      }
      if Last(ops).AddOp? { UsedAfterAdd(ops, key); } else { UsedAfterRelease(ops, key); }
    }
  }

  /** If moreover each arrives with one reference, the counts are the uses. */
  ghost predicate ArriveOnce(ops: seq<Op>) {
    ops == [] ||
    (&& ArriveOnce(Front(ops))
     && (Last(ops).AddOp? && !Present(Front(ops), Last(ops).s.key) ==> CountIn(Last(ops).s.refs, Last(ops).c) == 1))
  }

  lemma {:induction false} CountsAreUses(ops: seq<Op>, c: string, key: Key)
    requires ArriveOwn(ops) && ArriveOnce(ops)
    ensures Counted(ops, c, key) == Uses(ops, c, key)
  {
    if ops != [] {
      var front := Front(ops);
      CountsAreUses(front, c, key);
      if !Present(front, key) { AbsentUncounted(front, c, key); }
      if Last(ops).AddOp? { assert CountIn(Last(ops).s.refs, c) >= 0; }
    }
  }

  lemma {:induction false} UsedAfterAdd(ops: seq<Op>, key: Key)
    requires ops != [] && Last(ops).AddOp?
    ensures Used(ops, key) <==> Used(Front(ops), key) || Gives(ops, key)
  {
    if Used(Front(ops), key) {
      var c :| Uses(Front(ops), c, key) > 0;
      assert Uses(ops, c, key) > 0;
    }
    if Gives(ops, key) { assert Uses(ops, Last(ops).c, key) > 0; }
    if Used(ops, key) && !Gives(ops, key) {
      var c :| Uses(ops, c, key) > 0;
      assert Uses(Front(ops), c, key) > 0;
    }
  }

  lemma {:induction false} UsedAfterRelease(ops: seq<Op>, key: Key)
    requires ops != [] && Last(ops).DeferOp?
    requires forall c :: Counted(Front(ops), c, key) > 0 <==> Uses(Front(ops), c, key) > 0
    requires Present(Front(ops), key) <==> Used(Front(ops), key)
    ensures Used(ops, key) <==> Present(ops, key)
  {
    var front, d := Front(ops), Last(ops).c;
    PresentAfterRelease(ops, key);
    if Used(ops, key) {
      var c :| Uses(ops, c, key) > 0;
      assert c != d && Uses(front, c, key) > 0 && Counted(front, c, key) > 0;
      assert CountedBut(front, d, key) && Used(front, key);
    }
    if Present(ops, key) {
      var c :| c != d && Counted(front, c, key) > 0;
      assert Uses(ops, c, key) > 0;
    }
  }

  /** A storage shared on the host arrives with the reference of a container that is already gone. Its
      mount outlives every use. */
  lemma {:induction false} StaleReferenceLeaks(a: string, b: string, s: Storage)
    requires a != b && s.refs == map[a := 1, b := 1] && s.driver in DRIVERS
    ensures var ops := [DeferOp(a, {})] + [AddOp(b, s, true)] + [DeferOp(b, {})];
            Has(Run(ops).entries, s.key) && Run(ops).mounts[s.key] == 1 && forall c :: Uses(ops, c, s.key) == 0
  {
    var first := [DeferOp(a, {})];
    var one := first + [AddOp(b, s, true)];
    var ops := one + [DeferOp(b, {})];
    OneMore([], DeferOp(a, {}));
    assert [] + first == first && Run(first).entries == [];
    NewEntrySurvives(first, b, s, b, {});
    assert a in s.refs && s.refs[a] > 0;
    EntriesAreCounted(ops, s.key);
    MountsAreEntries(ops, s.key);
    OneMore(first, AddOp(b, s, true));
    OneMore(one, DeferOp(b, {}));
    assert Leaks(first, s.key) == 0 && Leaks(one, s.key) == 0 && Leaks(ops, s.key) == 0;
    forall c ensures Uses(ops, c, s.key) == 0 {
      assert Uses(first, c, s.key) == 0;
    }
  }
}
