/** The life of template references across every interleaving of restores, failed restores,
    deletes, evictions, crashes and recoveries.

    A step is one critical section of the template pool or of one sandbox. Requests on one sandbox
    are serialized, requests on different sandboxes interleave, and every fallible call may fail. A
    sandbox may be started again, and the pool may come back from a restart in the other lease mode.
 */
module TemplateRefs {
  import opened Wrappers
  import opened Templates

  /** Where the request in progress on a sandbox has got to. */
  datatype Op =
    | Idle
    | Leased(lease: Lease)       // template acquired, nothing restored yet
    | Restoring(lease: Lease)    // metadata set, VM being restored
    | Restored(lease: Lease)     // VM up, Environment pin taken if needed
    | Dumped(lease: Lease)       // sandbox.json written, lease not completed yet
    | RolledBack(lease: Lease)   // metadata cleared, lease not failed yet
    | Deleting                   // VM stopped
    | Unlinked                   // base directory removed
    | Dereferenced               // reference given back, still in the map

  datatype Sandbox = Sandbox(meta: RestoreMeta, op: Op)

  datatype State = State(
    sandboxes: map<string, Sandbox>,
    disk: map<string, RestoreMeta>,      // readable sandbox.json files
    pool: Pool,
    leaked: multiset<string>,            // restores that were counted and never ended
    lost: multiset<string>,              // references whose metadata was overwritten
    known: set<Template>,                // every template ever added
    consumed: set<Template>,             // directories with the consumed marker
    removed: set<Template>,              // directories removed
    doomed: multiset<Template>,          // chosen for eviction, directory not removed yet
    strays: set<(string, Template)>)     // VMs left running on files that nothing records

  // ---- Steps of one sandbox ----

  datatype Act =
    | Acquire(t: Template)
    | SetMeta(memory: MemoryMode, disks: bool, orphans: seq<string>, vmLeft: bool)
    | RestoreFails(vmLeft: bool)
    | RestoreWorks
    | PostRestoreFails(torn: bool, vmLeft: bool)
    | Dump(skipped: bool)
    | Complete
    | FailLease(unmarked: bool)
    | Redump
    | DeleteStarts(killed: set<Template>)
    | DeleteFails(torn: bool)
    | RemoveDir
    | Dereference(cleaned: bool)

  /** The sandbox is at the point where this happens. */
  predicate Ready(op: Op, a: Act) {
    match a
    case Acquire(_) => op.Idle?
    case SetMeta(_, _, _, _) => op.Leased?
    case RestoreFails(_) => op.Restoring?
    case RestoreWorks => op.Restoring?
    case PostRestoreFails(_, _) => op.Restored?
    case Dump(_) => op.Restored?
    case Complete => op.Dumped?
    case FailLease(_) => op.Leased? || op.RolledBack?
    case Redump => op.Idle?
    case DeleteStarts(_) => op.Idle?
    case DeleteFails(_) => op.Deleting?
    case RemoveDir => op.Deleting?
    case Dereference(_) => op.Unlinked?
  }

  predicate Can(available: set<Template>, sb: Sandbox, a: Act) {
    Ready(sb.op, a) && (a.Acquire? ==> a.t in available)
  }

  function NextSandbox(mode: LeaseMode, sb: Sandbox, a: Act): Sandbox
    requires Ready(sb.op, a)
  {
    match a
    case Acquire(t) => sb.(op := Leased(Lease(t, KindOfLease(mode, t.kind))))
    case SetMeta(memory, disks, orphans, _) =>
      Sandbox(MetaFor(mode, sb.op.lease.template, memory, disks, orphans), Restoring(sb.op.lease))
    case RestoreFails(_) => Sandbox(DefaultMeta, RolledBack(sb.op.lease))
    case RestoreWorks => sb.(op := Restored(sb.op.lease))
    case PostRestoreFails(_, _) => Sandbox(DefaultMeta, RolledBack(sb.op.lease))
    case Dump(_) => sb.(op := Dumped(sb.op.lease))
    case Complete => sb.(op := Idle)
    case FailLease(_) => sb.(op := Idle)
    case Redump => sb
    case DeleteStarts(_) => sb.(op := Deleting)
    case DeleteFails(_) => sb.(op := Idle)
    case RemoveDir => sb.(op := Unlinked)
    case Dereference(_) => sb.(op := Dereferenced)
  }

  predicate HasLease(op: Op) {
    op.Leased? || op.Restoring? || op.Restored? || op.Dumped? || op.RolledBack?
  }

  function NextPool(p: Pool, sb: Sandbox, a: Act): (p': Pool)
    requires Ready(sb.op, a)
    ensures p'.mode == p.mode
  {
    match a
    case Acquire(t) => Acquired(p, LeaseOn(p, t))
    case RestoreWorks => if NeedsPin(sb.meta) then p.(inUse := Increment(p.inUse, sb.meta.templateId.value)) else p
    case PostRestoreFails(_, _) =>
      if NeedsPin(sb.meta) then p.(inUse := Decrement(p.inUse, sb.meta.templateId.value)) else p
    case Complete => Completed(p, sb.op.lease)
    case FailLease(_) => Failed(p, sb.op.lease)
    case Dereference(_) =>
      (match Released(sb.meta)
       case Some(t) => p.(inUse := Decrement(p.inUse, t))
       case None => p)
    case _ => p
  }

  /** The file of a sandbox, if it has a readable one. */
  function DumpOf(disk: map<string, RestoreMeta>, id: string): Option<RestoreMeta> {
    if id in disk then Some(disk[id]) else None
  }

  /** What becomes of the sandbox's file. */
  function FileAfter(dump: Option<RestoreMeta>, sb: Sandbox, a: Act): Option<RestoreMeta> {
    match a
    case Dump(skipped) => if skipped then dump else Some(sb.meta)
    case Redump => Some(sb.meta)
    case PostRestoreFails(torn, _) => if torn then None else dump
    case DeleteFails(torn) => if torn then None else dump
    case RemoveDir => None
    case _ => dump
  }

  function NextDump(disk: map<string, RestoreMeta>, id: string, sb: Sandbox, a: Act): map<string, RestoreMeta> {
    var dump := FileAfter(DumpOf(disk, id), sb, a);
    if dump == DumpOf(disk, id) then disk
    else match dump
      case Some(m) => disk[id := m]
      case None => disk - {id}
  }

  /** Setting the metadata forgets the reference the old metadata stood for. */
  function LostBy(sb: Sandbox, a: Act): multiset<string> {
    if a.SetMeta? && Released(sb.meta).Some? then multiset{Released(sb.meta).value} else multiset{}
  }

  /** The consumed marker is written by an Exclusive acquire, and taken away by a failed lease and
      together with the directory by a delete. */
  function NextConsumed(consumed: set<Template>, mode: LeaseMode, sb: Sandbox, a: Act): set<Template>
    requires Ready(sb.op, a)
  {
    match a
    case Acquire(t) => if KindOfLease(mode, t.kind).ExclusiveLease? then consumed + {t} else consumed
    case FailLease(unmarked) =>
      if unmarked && sb.op.lease.kind.ExclusiveLease? then consumed - {sb.op.lease.template} else consumed
    case Dereference(cleaned) => if cleaned then consumed - Cleaned(consumed, sb.meta) else consumed
    case _ => consumed
  }

  function Cleaned(consumed: set<Template>, m: RestoreMeta): set<Template> {
    set t | t in consumed && CleanedUp(m) == Some(t.id)
  }

  function NextRemoved(removed: set<Template>, consumed: set<Template>, sb: Sandbox, a: Act): set<Template> {
    if a.Dereference? && a.cleaned then removed + Cleaned(consumed, sb.meta) else removed
  }

  /** The template the metadata names. */
  function NamedBy(m: RestoreMeta): Option<Template> {
    if m.templateId.Some? && m.kind.Some? then Some(Template(m.templateId.value, m.kind.value)) else None
  }

  /** The VM of a sandbox with this metadata, if it needs the files of its template. */
  function LeftBehind(id: string, m: RestoreMeta): set<(string, Template)> {
    if NamedBy(m).Some? && UsesFiles(m) then {(id, NamedBy(m).value)} else {}
  }

  /** A VM that a rollback could not stop runs on, and so may the VM of a sandbox that is restored again;
      a later delete may stop it. */
  function NextStrays(strays: set<(string, Template)>, id: string, sb: Sandbox, a: Act): set<(string, Template)>
    requires Ready(sb.op, a)
  {
    match a
    case SetMeta(_, _, _, vmLeft) => if vmLeft then strays + LeftBehind(id, sb.meta) else strays
    case RestoreFails(vmLeft) => if vmLeft then strays + LeftBehind(id, sb.meta) else strays
    case PostRestoreFails(_, vmLeft) => if vmLeft then strays + LeftBehind(id, sb.meta) else strays
    case DeleteStarts(killed) => set x | x in strays && !(x.0 == id && x.1 in killed)
    case _ => strays
  }

  function ApplyAct(s: State, id: string, a: Act): State
    requires id in s.sandboxes && Ready(s.sandboxes[id].op, a)
  {
    var sb := s.sandboxes[id];
    State(s.sandboxes[id := NextSandbox(s.pool.mode, sb, a)],
          NextDump(s.disk, id, sb, a),
          NextPool(s.pool, sb, a),
          s.leaked,
          s.lost + LostBy(sb, a),
          s.known,
          NextConsumed(s.consumed, s.pool.mode, sb, a),
          NextRemoved(s.removed, s.consumed, sb, a),
          s.doomed,
          NextStrays(s.strays, id, sb, a))
  }

  // ---- Steps of the pool and of the whole sandboxer ----

  datatype Step =
    | On(id: string, act: Act)
    | Create(id: string)
    | Forget(id: string)
    | AddTemplate(t: Template)
    | AcquireWrongKind(t: Template)
    | Choose(evictor: Evictor, t: Template)
    | Evict(t: Template)
    | Spare(t: Template)
    | Restart(recovered: set<string>, loaded: set<Template>, mode: LeaseMode,
              swept: set<Template>, left: set<(string, Template)>)

  predicate Enabled(s: State, step: Step) {
    match step
    case On(id, a) => id in s.sandboxes && Can(s.pool.available, s.sandboxes[id], a)
    case Create(id) => id !in s.sandboxes
    case Forget(id) => id in s.sandboxes && s.sandboxes[id].op.Dereferenced?
    case AddTemplate(t) => !t.kind.Continuation? && forall u :: u in s.known ==> u.id != t.id
    case AcquireWrongKind(t) => t in s.pool.available && t.kind.Environment?
    case Choose(e, t) => t in s.pool.available && Evictable(e, s.pool, t)
    case Evict(t) => s.doomed[t] > 0
    case Spare(t) => s.doomed[t] > 0
    case Restart(recovered, loaded, _, swept, left) =>
      && recovered <= s.disk.Keys
      && loaded <= s.known - s.consumed - s.removed
      && swept <= Orphaned(s, recovered)
      && forall x :: x in left ==> x.0 in s.sandboxes && x.1 in s.known && HasVm(s.sandboxes[x.0], x.1)
  }

  /** Consumed directories that no recovered sandbox names. */
  function Orphaned(s: State, recovered: set<string>): set<Template> {
    set t | t in s.consumed && forall id :: id in recovered && id in s.disk ==> s.disk[id].templateId != Some(t.id)
  }

  /** The sandbox may have a VM that runs from the files of `t`. */
  predicate HasVm(sb: Sandbox, t: Template) {
    NamedBy(sb.meta) == Some(t) && UsesFiles(sb.meta) && !sb.op.Deleting? && !sb.op.Unlinked? && !sb.op.Dereferenced?
  }

  /** The sandboxes that survive a restart, from their dumps. */
  function Recovered(disk: map<string, RestoreMeta>, ids: set<string>): map<string, Sandbox> {
    map id | id in ids && id in disk :: Sandbox(disk[id], Idle)
  }

  function PinnedIds(sbs: map<string, Sandbox>): set<string> {
    set id | id in sbs && CollectedId(Collect(sbs[id].meta)).Some? :: CollectedId(Collect(sbs[id].meta)).value
  }

  /** `rebuild_active_refs` over what `recover` collected from the recovered sandboxes. */
  function Rebuilt(sbs: map<string, Sandbox>): Counter {
    map t | t in PinnedIds(sbs) :: |Owners(sbs, sbs.Keys, t)|
  }

  function Owners(sbs: map<string, Sandbox>, ids: set<string>, t: string): set<string> {
    set id | id in ids && id in sbs && CollectedId(Collect(sbs[id].meta)) == Some(t)
  }

  function Apply(s: State, step: Step): State
    requires Enabled(s, step)
  {
    match step
    case On(id, a) => ApplyAct(s, id, a)
    case Create(id) => s.(sandboxes := s.sandboxes[id := Sandbox(DefaultMeta, Idle)], disk := s.disk[id := DefaultMeta])
    case Forget(id) => s.(sandboxes := s.sandboxes - {id})
    case AddTemplate(t) => s.(pool := s.pool.(available := s.pool.available + {t}), known := s.known + {t})
    case AcquireWrongKind(t) =>
      s.(pool := s.pool.(inFlight := Increment(s.pool.inFlight, t.id)), leaked := s.leaked + multiset{t.id})
    case Choose(_, t) => s.(doomed := s.doomed + multiset{t})
    case Evict(t) =>
      s.(pool := s.pool.(available := s.pool.available - {t}), doomed := s.doomed - multiset{t}, removed := s.removed + {t})
    case Spare(t) => s.(doomed := s.doomed - multiset{t})
    case Restart(recovered, loaded, mode, swept, left) =>
      var sbs := Recovered(s.disk, recovered);
      State(sbs, map id | id in recovered && id in s.disk :: s.disk[id],
            Pool(mode, loaded, Rebuilt(sbs), map[]), multiset{}, multiset{},
            s.known, s.consumed - swept, s.removed + swept, multiset{}, s.strays + left)
  }

  // ---- Recovery ----

  /** `rebuild_active_refs`: the counters are cleared and every listed id counts once. */
  method RebuildActiveRefs(shared: seq<string>, pinned: seq<string>) returns (m: Counter)
    ensures NoZero(m) && forall t :: CountOf(m, t) == multiset(shared)[t] + multiset(pinned)[t]
  {
    m := map[];
    for k := 0 to |shared|
      invariant NoZero(m) && forall t :: CountOf(m, t) == multiset(shared[..k])[t]
    {
      assert shared[..k + 1] == shared[..k] + [shared[k]];
      m := Increment(m, shared[k]);
    }
    assert shared[..|shared|] == shared;
    for k := 0 to |pinned|
      invariant NoZero(m) && forall t :: CountOf(m, t) == multiset(shared)[t] + multiset(pinned[..k])[t]
    {
      assert pinned[..k + 1] == pinned[..k] + [pinned[k]];
      m := Increment(m, pinned[k]);
    }
    assert pinned[..|pinned|] == pinned;
  }

  /** The last part of `recover`: visit the recovered sandboxes in any order, collect the two lists,
      rebuild the counters. Every reference a later `delete` will give back is counted, once. */
  method RecoverRefs(sbs: map<string, Sandbox>) returns (m: Counter)
    ensures NoZero(m) && forall t :: CountOf(m, t) == |Owners(sbs, sbs.Keys, t)|
  {
    var lists := Lists([], []);
    var todo, seen := sbs.Keys, {};
    while todo != {}
      invariant seen <= sbs.Keys && todo == sbs.Keys - seen
      invariant forall t :: Listed(lists, t) == |Owners(sbs, seen, t)|
    {
      var id :| id in todo;
      OwnersGrow(sbs, seen, id);
      lists := AddTo(lists, Collect(sbs[id].meta));
      todo, seen := todo - {id}, seen + {id};
    }
    assert seen == sbs.Keys;
    m := RebuildActiveRefs(lists.shared, lists.pinned);
  }

  /** The two lists `recover` fills. */
  datatype Lists = Lists(shared: seq<string>, pinned: seq<string>)

  function Listed(l: Lists, t: string): nat {
    multiset(l.shared)[t] + multiset(l.pinned)[t]
  }

  function AddTo(l: Lists, c: Collected): (l': Lists)
    ensures forall t :: Listed(l', t) == Listed(l, t) + Bit(CollectedId(c) == Some(t))
  {
    match c
    case SharedRefOf(t) => l.(shared := l.shared + [t])
    case PinOf(t) => l.(pinned := l.pinned + [t])
    case Neither => l
  }

  lemma {:induction false} OwnersGrow(sbs: map<string, Sandbox>, ids: set<string>, id: string)
    requires id in sbs && id !in ids
    ensures forall t :: |Owners(sbs, ids + {id}, t)| ==
                        |Owners(sbs, ids, t)| + Bit(CollectedId(Collect(sbs[id].meta)) == Some(t))
  {
    forall t ensures |Owners(sbs, ids + {id}, t)| == |Owners(sbs, ids, t)| + Bit(CollectedId(Collect(sbs[id].meta)) == Some(t)) {
      assert Owners(sbs, ids + {id}, t) ==
             Owners(sbs, ids, t) + if CollectedId(Collect(sbs[id].meta)) == Some(t) then {id} else {};
    }
  }

  /** `delete` gives back exactly the reference the sandbox owned, and recovery collects exactly the
      references `delete` would give back. */
  lemma {:induction false} ReleaseMatchesRebuild(m: RestoreMeta, t: string)
    ensures Released(m) == Some(t) <==> HoldsPin(m, t)
    ensures CollectedId(Collect(m)) == Released(m)
  {}

  // ---- Who holds what ----

  function Bit(b: bool): nat { if b then 1 else 0 }

  /** The three ways a sandbox accounts for one unit of a counter. */
  datatype Role = Pins | Refs | Flights

  predicate LeaseOf(op: Op, t: string, kind: LeaseKind) {
    HasLease(op) && op.lease.template.id == t && op.lease.kind == kind
  }

  /** A live sandbox that is WarmFork-Shared or Environment-non-Copy on `t`. */
  predicate LiveOn(sb: Sandbox, t: string) {
    && HoldsPin(sb.meta, t)
    && (sb.op.Idle? || sb.op.Leased? || sb.op.Deleting? || sb.op.Unlinked? ||
        ((sb.op.Restored? || sb.op.Dumped?) && sb.op.lease.kind.SharedLease?))
  }

  predicate Plays(role: Role, sb: Sandbox, t: string) {
    match role
    case Pins => LiveOn(sb, t)
    case Refs => LeaseOf(sb.op, t, SharedRef)
    case Flights => LeaseOf(sb.op, t, SharedLease)
  }

  function Players(role: Role, sbs: map<string, Sandbox>, t: string): set<string> {
    set id | id in sbs && Plays(role, sbs[id], t)
  }

  ghost predicate InUseOk(m: Counter, sbs: map<string, Sandbox>, lost: multiset<string>) {
    NoZero(m) && forall t :: CountOf(m, t) == |Players(Pins, sbs, t)| + |Players(Refs, sbs, t)| + lost[t]
  }

  ghost predicate InFlightOk(m: Counter, sbs: map<string, Sandbox>, leaked: multiset<string>) {
    NoZero(m) && forall t :: CountOf(m, t) == |Players(Flights, sbs, t)| + leaked[t]
  }

  /** What one sandbox says about its own lease and metadata. */
  predicate SandboxOk(mode: LeaseMode, known: set<Template>, sb: Sandbox) {
    && (HasLease(sb.op) ==> sb.op.lease.template in known && sb.op.lease.kind == KindOfLease(mode, sb.op.lease.template.kind))
    && (sb.op.RolledBack? ==> sb.meta == DefaultMeta)
    && (sb.op.Restoring? || sb.op.Restored? || sb.op.Dumped? ==>
          sb.meta.memory.Some? && sb.meta == MetaFor(mode, sb.op.lease.template, sb.meta.memory.value, sb.meta.linked, sb.meta.orphans))
  }

  predicate KnownOk(s: State) {
    && s.pool.available <= s.known
    && (forall t :: t in s.known ==> !t.kind.Continuation?)
    && (forall t, u :: t in s.known && u in s.known && t.id == u.id ==> t == u)
  }

  ghost predicate Inv(s: State) {
    && InUseOk(s.pool.inUse, s.sandboxes, s.lost)
    && InFlightOk(s.pool.inFlight, s.sandboxes, s.leaked)
    && (forall id :: id in s.sandboxes ==> SandboxOk(s.pool.mode, s.known, s.sandboxes[id]))
    && KnownOk(s)
  }

  lemma {:induction false} PlayersUpdate(role: Role, sbs: map<string, Sandbox>, id: string, sb: Sandbox, t: string)
    ensures |Players(role, sbs[id := sb], t)| ==
            |Players(role, sbs, t)| - Bit(id in sbs && Plays(role, sbs[id], t)) + Bit(Plays(role, sb, t))
  {
    var old', new' := Players(role, sbs, t), Players(role, sbs[id := sb], t);
    assert new' == if Plays(role, sb, t) then old' + {id} else old' - {id};
  }

  lemma {:induction false} PlayersRemove(role: Role, sbs: map<string, Sandbox>, id: string, t: string)
    ensures |Players(role, sbs - {id}, t)| == |Players(role, sbs, t)| - Bit(id in sbs && Plays(role, sbs[id], t))
  {
    assert Players(role, sbs - {id}, t) == Players(role, sbs, t) - {id};
  }

  function Units(sb: Sandbox, t: string): nat {
    Bit(Plays(Pins, sb, t)) + Bit(Plays(Refs, sb, t))
  }

  /** The counters move with the sandbox, reference for reference. */
  ghost predicate Balanced(p: Pool, p': Pool, sb: Sandbox, sb': Sandbox, lost: multiset<string>) {
    && NoZero(p'.inUse) && NoZero(p'.inFlight)
    && (forall t :: CountOf(p'.inUse, t) + Units(sb, t) == CountOf(p.inUse, t) + Units(sb', t) + lost[t])
    && (forall t :: CountOf(p'.inFlight, t) + Bit(Plays(Flights, sb, t)) == CountOf(p.inFlight, t) + Bit(Plays(Flights, sb', t)))
  }

  /** What a sandbox accounts for is counted. */
  ghost predicate Covered(p: Pool, sb: Sandbox) {
    && NoZero(p.inUse) && NoZero(p.inFlight)
    && (forall t :: Units(sb, t) <= CountOf(p.inUse, t))
    && (forall t :: Plays(Flights, sb, t) ==> CountOf(p.inFlight, t) > 0)
  }

  lemma {:induction false} SandboxIsCovered(s: State, id: string)
    requires Inv(s) && id in s.sandboxes
    ensures Covered(s.pool, s.sandboxes[id])
  {
    forall t
      ensures Units(s.sandboxes[id], t) <= CountOf(s.pool.inUse, t)
      ensures Plays(Flights, s.sandboxes[id], t) ==> CountOf(s.pool.inFlight, t) > 0
    {
      IsPlayer(Pins, s.sandboxes, id, t);
      IsPlayer(Refs, s.sandboxes, id, t);
      IsPlayer(Flights, s.sandboxes, id, t);
    }
  }

  lemma {:induction false} IsPlayer(role: Role, sbs: map<string, Sandbox>, id: string, t: string)
    requires id in sbs
    ensures Bit(Plays(role, sbs[id], t)) <= |Players(role, sbs, t)|
  {
    if Plays(role, sbs[id], t) { assert id in Players(role, sbs, t); }
  }

  // ---- One step of one sandbox, without the rest of the state ----

  lemma {:induction false} LocalOk(p: Pool, known: set<Template>, sb: Sandbox, a: Act)
    requires Can(p.available, sb, a) && SandboxOk(p.mode, known, sb) && p.available <= known
    ensures SandboxOk(p.mode, known, NextSandbox(p.mode, sb, a))
  {}

  lemma {:induction false} AcquireBalances(p: Pool, sb: Sandbox, a: Act)
    requires a.Acquire? && Can(p.available, sb, a) && Covered(p, sb)
    ensures Balanced(p, NextPool(p, sb, a), sb, NextSandbox(p.mode, sb, a), LostBy(sb, a))
  {}

  lemma {:induction false} SetMetaBalances(p: Pool, sb: Sandbox, a: Act)
    requires a.SetMeta? && Can(p.available, sb, a) && Covered(p, sb)
    ensures Balanced(p, NextPool(p, sb, a), sb, NextSandbox(p.mode, sb, a), LostBy(sb, a))
  {
    ReleasedIsPin(sb.meta);
  }

  lemma {:induction false} RestoreBalances(p: Pool, known: set<Template>, sb: Sandbox, a: Act)
    requires a.RestoreFails? || a.Dump?
    requires Can(p.available, sb, a) && SandboxOk(p.mode, known, sb) && Covered(p, sb)
    ensures Balanced(p, NextPool(p, sb, a), sb, NextSandbox(p.mode, sb, a), LostBy(sb, a))
  {}

  lemma {:induction false} PinBalances(p: Pool, known: set<Template>, sb: Sandbox, a: Act)
    requires a.RestoreWorks? && Can(p.available, sb, a) && SandboxOk(p.mode, known, sb) && Covered(p, sb)
    ensures Balanced(p, NextPool(p, sb, a), sb, NextSandbox(p.mode, sb, a), LostBy(sb, a))
  {}

  lemma {:induction false} UnpinBalances(p: Pool, known: set<Template>, sb: Sandbox, a: Act)
    requires a.PostRestoreFails? && Can(p.available, sb, a) && SandboxOk(p.mode, known, sb) && Covered(p, sb)
    ensures Balanced(p, NextPool(p, sb, a), sb, NextSandbox(p.mode, sb, a), LostBy(sb, a))
  {
    if NeedsPin(sb.meta) { assert Units(sb, sb.meta.templateId.value) > 0; }
  }

  lemma {:induction false} CompleteBalances(p: Pool, known: set<Template>, sb: Sandbox, a: Act)
    requires a.Complete? && Can(p.available, sb, a) && SandboxOk(p.mode, known, sb) && Covered(p, sb)
    requires !sb.op.lease.template.kind.Continuation?
    ensures Balanced(p, NextPool(p, sb, a), sb, NextSandbox(p.mode, sb, a), LostBy(sb, a))
  {
    assert sb.op.lease.kind.SharedLease? ==> Plays(Flights, sb, sb.op.lease.template.id);
  }

  lemma {:induction false} FailBalances(p: Pool, known: set<Template>, sb: Sandbox, a: Act)
    requires a.FailLease? && Can(p.available, sb, a) && SandboxOk(p.mode, known, sb) && Covered(p, sb)
    ensures Balanced(p, NextPool(p, sb, a), sb, NextSandbox(p.mode, sb, a), LostBy(sb, a))
  {
    var t := sb.op.lease.template.id;
    assert sb.op.lease.kind.SharedRef? ==> Plays(Refs, sb, t);
    assert sb.op.lease.kind.SharedLease? ==> Plays(Flights, sb, t);
  }

  lemma {:induction false} DeleteBalances(p: Pool, sb: Sandbox, a: Act)
    requires a.Redump? || a.DeleteStarts? || a.DeleteFails? || a.RemoveDir?
    requires Can(p.available, sb, a) && Covered(p, sb)
    ensures Balanced(p, NextPool(p, sb, a), sb, NextSandbox(p.mode, sb, a), LostBy(sb, a))
  {}

  lemma {:induction false} DereferenceBalances(p: Pool, sb: Sandbox, a: Act)
    requires a.Dereference? && Can(p.available, sb, a) && Covered(p, sb)
    ensures Balanced(p, NextPool(p, sb, a), sb, NextSandbox(p.mode, sb, a), LostBy(sb, a))
  {
    ReleasedIsPin(sb.meta);
    if Released(sb.meta).Some? { assert Plays(Pins, sb, Released(sb.meta).value); }
  }

  lemma {:induction false} ReleasedIsPin(m: RestoreMeta)
    ensures forall t :: Released(m) == Some(t) <==> HoldsPin(m, t)
  {
    forall t ensures Released(m) == Some(t) <==> HoldsPin(m, t) { ReleaseMatchesRebuild(m, t); }
  }

  lemma {:induction false} ActBalances(p: Pool, known: set<Template>, sb: Sandbox, a: Act)
    requires Can(p.available, sb, a) && SandboxOk(p.mode, known, sb) && Covered(p, sb)
    requires forall t :: t in known ==> !t.kind.Continuation?
    ensures Balanced(p, NextPool(p, sb, a), sb, NextSandbox(p.mode, sb, a), LostBy(sb, a))
  {
    match a
    case Acquire(_) => AcquireBalances(p, sb, a);
    case SetMeta(_, _, _, _) => SetMetaBalances(p, sb, a);
    case RestoreFails(_) => RestoreBalances(p, known, sb, a);
    case RestoreWorks => PinBalances(p, known, sb, a);
    case PostRestoreFails(_, _) => UnpinBalances(p, known, sb, a);
    case Dump(_) => RestoreBalances(p, known, sb, a);
    case Complete => CompleteBalances(p, known, sb, a);
    case FailLease(_) => FailBalances(p, known, sb, a);
    case Dereference(_) => DereferenceBalances(p, sb, a);
    case _ => DeleteBalances(p, sb, a);
  }

  // ---- Every step keeps the invariant ----

  lemma {:induction false} CountersMove(p: Pool, p': Pool, sbs: map<string, Sandbox>, id: string, sb': Sandbox,
                                        lost: multiset<string>, more: multiset<string>, leaked: multiset<string>)
    requires InUseOk(p.inUse, sbs, lost) && InFlightOk(p.inFlight, sbs, leaked) && id in sbs
    requires Balanced(p, p', sbs[id], sb', more)
    ensures InUseOk(p'.inUse, sbs[id := sb'], lost + more) && InFlightOk(p'.inFlight, sbs[id := sb'], leaked)
  {
    forall t
      ensures CountOf(p'.inUse, t) == |Players(Pins, sbs[id := sb'], t)| + |Players(Refs, sbs[id := sb'], t)| + (lost + more)[t]
      ensures CountOf(p'.inFlight, t) == |Players(Flights, sbs[id := sb'], t)| + leaked[t]
    {
      PlayersUpdate(Pins, sbs, id, sb', t);
      PlayersUpdate(Refs, sbs, id, sb', t);
      PlayersUpdate(Flights, sbs, id, sb', t);
    }
  }

  lemma {:induction false} ActKeepsAvailable(p: Pool, known: set<Template>, sb: Sandbox, a: Act)
    requires Ready(sb.op, a) && SandboxOk(p.mode, known, sb) && p.available <= known
    ensures NextPool(p, sb, a).available <= known
  {}

  lemma {:induction false} ActInv(s: State, id: string, a: Act)
    requires Inv(s) && id in s.sandboxes && Can(s.pool.available, s.sandboxes[id], a)
    ensures Inv(ApplyAct(s, id, a))
  {
    var sb := s.sandboxes[id];
    SandboxIsCovered(s, id);
    ActBalances(s.pool, s.known, sb, a);
    LocalOk(s.pool, s.known, sb, a);
    ActKeepsAvailable(s.pool, s.known, sb, a);
    CountersMove(s.pool, NextPool(s.pool, sb, a), s.sandboxes, id, NextSandbox(s.pool.mode, sb, a), s.lost, LostBy(sb, a), s.leaked);
  }

  lemma {:induction false} CreateInv(s: State, id: string)
    requires Inv(s) && id !in s.sandboxes
    ensures Inv(Apply(s, Create(id)))
  {
    var sb := Sandbox(DefaultMeta, Idle);
    forall t, role ensures |Players(role, s.sandboxes[id := sb], t)| == |Players(role, s.sandboxes, t)| {
      PlayersUpdate(role, s.sandboxes, id, sb, t);
    }
  }

  lemma {:induction false} ForgetInv(s: State, id: string)
    requires Inv(s) && Enabled(s, Forget(id))
    ensures Inv(Apply(s, Forget(id)))
  {
    forall t, role ensures |Players(role, s.sandboxes - {id}, t)| == |Players(role, s.sandboxes, t)| {
      PlayersRemove(role, s.sandboxes, id, t);
    }
  }

  lemma {:induction false} PoolStepInv(s: State, step: Step)
    requires Inv(s) && Enabled(s, step) && (step.AcquireWrongKind? || step.Choose? || step.Evict? || step.Spare?)
    ensures Inv(Apply(s, step))
  {
    if step.AcquireWrongKind? {
      assert InFlightOk(Increment(s.pool.inFlight, step.t.id), s.sandboxes, s.leaked + multiset{step.t.id});
    }
  }

  lemma {:induction false} AddInv(s: State, t: Template)
    requires Inv(s) && Enabled(s, AddTemplate(t))
    ensures Inv(Apply(s, AddTemplate(t)))
  {
    var s' := Apply(s, AddTemplate(t));
    forall id | id in s'.sandboxes ensures SandboxOk(s'.pool.mode, s'.known, s'.sandboxes[id]) {
      assert SandboxOk(s.pool.mode, s.known, s.sandboxes[id]);
    }
    assert KnownOk(s');
  }

  lemma {:induction false} RebuiltIsRight(sbs: map<string, Sandbox>)
    requires forall id :: id in sbs ==> sbs[id].op.Idle?
    ensures InUseOk(Rebuilt(sbs), sbs, multiset{})
  {
    var m := Rebuilt(sbs);
    forall t ensures CountOf(m, t) == |Players(Pins, sbs, t)| + |Players(Refs, sbs, t)| && (t in m ==> m[t] > 0) {
      var owners := Owners(sbs, sbs.Keys, t);
      assert owners == Players(Pins, sbs, t);
      assert Players(Refs, sbs, t) == {};
      if t in PinnedIds(sbs) {
        var id :| id in sbs && CollectedId(Collect(sbs[id].meta)) == Some(t);
        assert id in owners;
      } else {
        assert owners == {};
      }
    }
  }

  lemma {:induction false} RestartInv(s: State, step: Step)
    requires Inv(s) && step.Restart? && Enabled(s, step)
    ensures Inv(Apply(s, step))
  {
    var s' := Apply(s, step);
    RebuiltIsRight(s'.sandboxes);
    forall t ensures |Players(Flights, s'.sandboxes, t)| == 0 {
      assert Players(Flights, s'.sandboxes, t) == {};
    }
  }

  /** Every step, a crash and recovery in either lease mode included, keeps the accounts in order. */
  lemma {:induction false} StepInv(s: State, step: Step)
    requires Inv(s) && Enabled(s, step)
    ensures Inv(Apply(s, step))
  {
    match step
    case On(id, a) => ActInv(s, id, a);
    case Create(id) => CreateInv(s, id);
    case Forget(id) => ForgetInv(s, id);
    case AddTemplate(t) => AddInv(s, t);
    case Restart(_, _, _, _, _) => RestartInv(s, step);
    case _ => PoolStepInv(s, step);
  }

  // ---- Runs ----

  function Boot(mode: LeaseMode): State {
    State(map[], map[], Pool(mode, {}, map[], map[]), multiset{}, multiset{}, {}, {}, {}, multiset{}, {})
  }

  /** The state after a sequence of steps from an empty start, if every step was enabled. */
  ghost function RunTo(mode: LeaseMode, steps: seq<Step>): Option<State> {
    if steps == [] then Some(Boot(mode))
    else match RunTo(mode, steps[..|steps| - 1])
         case None => None
         case Some(s) =>
           var step := steps[|steps| - 1];
           if Enabled(s, step) then Some(Apply(s, step)) else None
  }

  lemma {:induction false} BootInv(mode: LeaseMode)
    ensures Inv(Boot(mode))
  {
    forall t, role ensures |Players(role, Boot(mode).sandboxes, t)| == 0 {
      assert Players(role, Boot(mode).sandboxes, t) == {};
    }
  }

  lemma {:induction false} RunInv(mode: LeaseMode, steps: seq<Step>)
    requires RunTo(mode, steps).Some?
    ensures Inv(RunTo(mode, steps).value)
  {
    if steps == [] {
      BootInv(mode);
    } else {
      RunInv(mode, steps[..|steps| - 1]);
      StepInv(RunTo(mode, steps[..|steps| - 1]).value, steps[|steps| - 1]);
    }
  }

  /** After every run, crashes, recoveries and changes of the lease mode included, the lifetime count
      of a template is the number of live sandboxes pinning it, plus the shared references still in
      the hands of a restore, plus the references lost when a restored sandbox was restored again;
      its in-flight count is the number of Environment restores in progress plus the leaked ones. */
  lemma {:induction false} CountsAreExact(mode: LeaseMode, steps: seq<Step>, t: string)
    requires RunTo(mode, steps).Some?
    ensures var s := RunTo(mode, steps).value;
            && CountOf(s.pool.inUse, t) == |Players(Pins, s.sandboxes, t)| + |Players(Refs, s.sandboxes, t)| + s.lost[t]
            && CountOf(s.pool.inFlight, t) == |Players(Flights, s.sandboxes, t)| + s.leaked[t]
  {
    RunInv(mode, steps);
  }
}
