/** Snapshot templates: restore metadata, leases, the two reference counters of the template pool and
    the conditions under which the pool evicts a template.
 */
module Templates {
  import opened Wrappers

  datatype SnapshotType = Environment | WarmFork | Continuation

  datatype LeaseMode = Shared | Exclusive

  datatype MemoryMode = Copy | OnDemand | FileBackend | ExternalUffd

  datatype Template = Template(id: string, kind: SnapshotType)

  /** What a sandbox remembers, and dumps to disk, about the template it was restored from; whether its disks
      are links shows in its directory. */
  datatype RestoreMeta = RestoreMeta(
    templateId: Option<string>,
    kind: Option<SnapshotType>,
    lease: Option<LeaseMode>,
    memory: Option<MemoryMode>,
    linked: bool,             // disk images are links into the template's directory
    orphans: seq<string>)

  const DefaultMeta := RestoreMeta(None, None, None, None, false, [])

  predicate NonCopy(memory: Option<MemoryMode>) {
    memory != None && memory != Some(Copy)
  }

  /** A VM restored with this metadata goes on reading the files of its template: it pages its memory in from
      them, or its disks are links to them. Memory that was copied is all in RAM. */
  predicate UsesFiles(m: RestoreMeta) {
    NonCopy(m.memory) || m.linked
  }

  /** A sandbox with this metadata owns one lifetime reference to template `t`. */
  predicate HoldsPin(m: RestoreMeta, t: string) {
    && m.templateId == Some(t)
    && ((m.kind == Some(WarmFork) && m.lease == Some(Shared)) || (m.kind == Some(Environment) && NonCopy(m.memory)))
  }

  /** The template whose reference `delete` gives back, by its match on the metadata. */
  function Released(m: RestoreMeta): Option<string> {
    match (m.templateId, m.kind)
    case (Some(t), Some(Environment)) => if m.memory == Some(Copy) || m.memory == None then None else Some(t)
    case (Some(t), Some(WarmFork)) =>
      (match m.lease
       case Some(Shared) => Some(t)
       case Some(Exclusive) => None
       case None => None)
    case _ => None
  }

  /** The template whose directory `delete` cleans up if it is marked consumed. */
  function CleanedUp(m: RestoreMeta): Option<string> {
    match (m.templateId, m.kind)
    case (Some(t), Some(WarmFork)) => if m.lease == Some(Shared) then None else Some(t)
    case (Some(t), None) => Some(t)
    case _ => None
  }

  /** The two lists `recover` collects: references of Shared WarmFork leases, and pins of
      Environment sandboxes whose memory is still backed by the snapshot. */
  datatype Collected = Neither | SharedRefOf(t: string) | PinOf(t: string)

  function Collect(m: RestoreMeta): Collected {
    if m.templateId.None? then Neither
    else if m.kind == Some(WarmFork) && m.lease == Some(Shared) then SharedRefOf(m.templateId.value)
    else if m.kind == Some(Environment) && !(m.memory == Some(Copy) || m.memory == None) then PinOf(m.templateId.value)
    else Neither
  }

  function CollectedId(c: Collected): Option<string> {
    if c.Neither? then None else Some(c.t)
  }

  // ---- Counters ----

  /** A counter map has no zero entries, so being present is being counted. */
  type Counter = map<string, nat>

  predicate NoZero(m: Counter) {
    forall t :: t in m ==> m[t] > 0
  }

  function CountOf(m: Counter, t: string): nat {
    if t in m then m[t] else 0
  }

  function Increment(m: Counter, t: string): (m': Counter)
    ensures NoZero(m) ==> NoZero(m')
    ensures forall u :: CountOf(m', u) == CountOf(m, u) + if u == t then 1 else 0
  {
    m[t := CountOf(m, t) + 1]
  }

  /** An unknown or zero entry is left alone, an entry that reaches zero is removed. */
  function Decrement(m: Counter, t: string): (m': Counter)
    ensures NoZero(m) ==> NoZero(m')
    ensures forall u :: CountOf(m', u) == if u == t && CountOf(m, t) > 0 then CountOf(m, t) - 1 else CountOf(m, u)
  {
    if t !in m || m[t] == 0 then m else if m[t] == 1 then m - {t} else m[t := m[t] - 1]
  }

  /** A counter that goes up and comes down again is what it was. */
  lemma {:induction false} UpThenDown(m: Counter, t: string)
    requires NoZero(m)
    ensures Decrement(Increment(m, t), t) == m
  {
    var m' := Decrement(Increment(m, t), t);
    if t in m {
      assert m' == m;
    } else {
      assert m' == m[t := 1] - {t};
    }
  }

  // ---- Leases ----

  datatype Pool = Pool(mode: LeaseMode, available: set<Template>, inUse: Counter, inFlight: Counter)

  datatype LeaseKind = SharedLease | SharedRef | ExclusiveLease

  datatype Lease = Lease(template: Template, kind: LeaseKind)

  function KindOfLease(mode: LeaseMode, kind: SnapshotType): LeaseKind {
    if kind.Environment? then SharedLease else if mode.Shared? then SharedRef else ExclusiveLease
  }

  function LeaseOn(p: Pool, t: Template): Lease { Lease(t, KindOfLease(p.mode, t.kind)) }

  /** `acquire_for_restore` and `acquire_by_id_for_restore`, on a template that is in the pool. */
  function Acquired(p: Pool, l: Lease): Pool {
    match l.kind
    case SharedLease => p.(inFlight := Increment(p.inFlight, l.template.id))
    case SharedRef => p.(inUse := Increment(p.inUse, l.template.id))
    case ExclusiveLease => p.(available := p.available - {l.template})
  }

  /** `TemplateLease::complete`: only an Environment lease ends its in-flight restore. */
  function Completed(p: Pool, l: Lease): Pool {
    if l.kind.SharedLease? then p.(inFlight := Decrement(p.inFlight, l.template.id)) else p
  }

  /** `TemplateLease::fail`: end the restore, drop the reference, or put the template back. */
  function Failed(p: Pool, l: Lease): Pool {
    match l.kind
    case SharedLease => p.(inFlight := Decrement(p.inFlight, l.template.id))
    case SharedRef => p.(inUse := Decrement(p.inUse, l.template.id))
    case ExclusiveLease => p.(available := p.available + {l.template})
  }

  /** Failing a lease undoes acquiring it. */
  lemma {:induction false} FailUndoesAcquire(p: Pool, t: Template)
    requires NoZero(p.inUse) && NoZero(p.inFlight) && t in p.available
    ensures Failed(Acquired(p, LeaseOn(p, t)), LeaseOn(p, t)) == p
  {
    UpThenDown(p.inUse, t.id);
    UpThenDown(p.inFlight, t.id);
    assert p.available - {t} + {t} == p.available;
  }

  /** The metadata a restore records; an Environment lease is Shared by default. Of the templates in the pool
      only WarmFork ones can have disk images: a Shared restore copies them, an Exclusive one links to them. */
  function MetaFor(mode: LeaseMode, t: Template, memory: MemoryMode, disks: bool, orphans: seq<string>): RestoreMeta {
    var lease := match t.kind case Environment => Shared case WarmFork => mode case Continuation => Exclusive;
    RestoreMeta(Some(t.id), Some(t.kind), Some(lease), Some(memory), disks && t.kind.WarmFork? && mode.Exclusive?, orphans)
  }

  /** The pin of an Environment sandbox whose memory stays backed by the snapshot. */
  predicate NeedsPin(m: RestoreMeta) {
    m.kind == Some(Environment) && NonCopy(m.memory) && m.templateId.Some?
  }

  // ---- Eviction ----

  /** The five places that decide to evict: the water level and the per-key depth in `add`,
      `gc_if_needed`, `remove_by_id` and `evict_by_kind`. */
  datatype Evictor = WaterLevel | MaxPerKey | GcIfNeeded | RemoveById | EvictByKind

  predicate Evictable(e: Evictor, p: Pool, t: Template) {
    && t.id !in p.inFlight
    && match e
       case WaterLevel => t.id !in p.inUse && (t.kind.WarmFork? ==> p.mode.Shared?)
       case MaxPerKey => t.id !in p.inUse
       case GcIfNeeded => t.id !in p.inUse && !(t.kind.WarmFork? && !p.mode.Shared?)
       case RemoveById => t.id !in p.inUse
       case EvictByKind =>
         (match t.kind
          case Environment => t.id !in p.inUse
          case _ => !p.mode.Shared? || t.id !in p.inUse)
  }
}
