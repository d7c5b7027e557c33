/** One restore of one sandbox, statement by statement: the template lease around it, the metadata,
    network and VM of the sandbox, and the rollback of every step that can fail.

    Every fallible call takes its outcome from a `Faults` record (`true` is a failure), so a contract
    that holds for all `Faults` holds for every pattern of failures.
 */
module RestoreFlow {
  import opened Wrappers
  import opened InjectTask
  import opened Templates
  import Refs = TemplateRefs

  datatype Faults = Faults(
    validate: bool, preStart: bool, prepareNetwork: bool, networkHalfMade: bool,
    vmRestore: bool, initClient: bool, hotplug: bool, refreshIdentity: bool,
    pushFiles: bool, setupSandbox: bool, addToCgroup: bool, postStart: bool, dump: Dumping,
    vmStop: bool, unmark: bool)

  /** How writing the sandbox's file goes: no directory to write to counts as done, a file that cannot
      be opened stays as it was, one that cannot be written is left unreadable. */
  datatype Dumping = Written | Skipped | NotOpened | Torn

  datatype Status = Created | Running(pid: nat) | Stopped | Paused

  datatype RestorePhase =
    | RestoreVm | InitClient | HotplugNetwork | InjectingTask | PushSandboxFiles | SetupSandbox
    | TransferNetworkIdentity | Committed

  /** The template's side of a restore, and what the pod asked to be injected. */
  datatype Source = Source(
    template: Template, memory: MemoryMode, disks: bool, orphans: seq<string>, storages: seq<string>, idGenerator: nat,
    tasks: Option<seq<Task>>, reply: Option<seq<Result>>, pid: nat)

  class TemplatePool {
    const mode: LeaseMode
    var available: set<Template>
    var inUse: Counter
    var inFlight: Counter
    var consumed: set<Template>
    var removed: set<Template>

    function Contents(): Pool
      reads this
    {
      Pool(mode, available, inUse, inFlight)
    }

    function Directories(): Marks
      reads this
    {
      Marks(consumed, removed)
    }

    constructor (mode: LeaseMode)
      ensures Contents() == Pool(mode, {}, map[], map[]) && Directories() == Marks({}, {})
    {
      this.mode, available, inUse, inFlight := mode, {}, map[], map[];
      consumed, removed := {}, {};
    }

    /** `acquire_for_restore` on a template that is in the pool. */
    method Acquire(t: Template)
      requires t in available && !t.kind.Continuation?
      modifies this
      ensures Contents() == Acquired(old(Contents()), LeaseOn(old(Contents()), t))
      ensures Directories() == Marked(old(Directories()), LeaseOn(old(Contents()), t))
    {
      match t.kind
      case Environment => inFlight := Increment(inFlight, t.id);
      case WarmFork =>
        if mode.Shared? {
          inUse := Increment(inUse, t.id);
        } else {
          available := available - {t};
          consumed := consumed + {t};
        }
    }

    /** `TemplateLease::complete`. */
    method Complete(l: Lease)
      modifies this`inFlight
      ensures Contents() == Completed(old(Contents()), l)
    {
      if l.kind.SharedLease? { inFlight := Decrement(inFlight, l.template.id); }
    }

    /** `TemplateLease::fail`; the marker of an exclusive lease may resist. */
    method Fail(l: Lease, unmark: bool)
      modifies this
      ensures Contents() == Failed(old(Contents()), l)
      ensures Directories() == if unmark then old(Directories()) else Unmarked(old(Directories()), l)
    {
      match l.kind
      case SharedLease => inFlight := Decrement(inFlight, l.template.id);
      case SharedRef => inUse := Decrement(inUse, l.template.id);
      case ExclusiveLease =>
        if !unmark { consumed := consumed - {l.template}; }
        available := available + {l.template};
    }

    /** `cleanup_consumed`: remove the directory of a template that is marked. */
    method CleanupConsumed(id: string, fails: bool)
      modifies this`consumed, this`removed
      ensures var marked := set t | t in old(consumed) && t.id == id;
              Directories() == if fails then old(Directories()) else Marks(old(consumed) - marked, old(removed) + marked)
    {
      if !fails {
        var marked := set t | t in consumed && t.id == id;
        consumed, removed := consumed - marked, removed + marked;
      }
    }
  }

  /** The template directories with the consumed marker, and those that are gone. */
  datatype Marks = Marks(consumed: set<Template>, removed: set<Template>)

  function Marked(d: Marks, l: Lease): Marks {
    if l.kind.ExclusiveLease? then d.(consumed := d.consumed + {l.template}) else d
  }

  function Unmarked(d: Marks, l: Lease): Marks {
    if l.kind.ExclusiveLease? then d.(consumed := d.consumed - {l.template}) else d
  }

  /** Does the whole chain inside `try_restore` go through? */
  predicate RestoreWorks(f: Faults, src: Source, virtioBlk: bool) {
    && !f.vmRestore && !f.initClient
    && match src.template.kind
       case WarmFork =>
         && !f.hotplug && !(virtioBlk && f.pushFiles) && !f.refreshIdentity
         && src.tasks.Some? && src.reply.Some? && HostAccepts(src.tasks.value, src.reply.value)
       case Continuation => true
       case Environment => !f.hotplug && !(virtioBlk && f.pushFiles) && !f.setupSandbox
  }

  class Sandbox {
    const virtioBlk: bool
    const netns: bool
    var status: Status
    var restore: RestoreMeta
    var network: bool
    var vmUp: bool
    var stopsIssued: nat
    var storages: seq<string>
    var idGenerator: nat
    var dumped: Option<RestoreMeta>

    constructor (virtioBlk: bool, netns: bool)
      ensures this.virtioBlk == virtioBlk && this.netns == netns
      ensures status == Created && restore == DefaultMeta && !network && !vmUp && dumped == Some(DefaultMeta)
    {
      this.virtioBlk, this.netns := virtioBlk, netns;
      status, restore, network, vmUp, stopsIssued := Created, DefaultMeta, false, false, 0;
      storages, idGenerator, dumped := [], 0, Some(DefaultMeta);
    }

    method VmStop(fails: bool) returns (ok: bool)
      modifies this`vmUp, this`stopsIssued
      ensures ok == !fails && stopsIssued == old(stopsIssued) + 1
      ensures vmUp == (old(vmUp) && fails)
    {
      stopsIssued := stopsIssued + 1;
      if !fails { vmUp := false; }
      return !fails;
    }

    /** `stop(true)`: a stopped sandbox only loses its network, a paused one is refused. */
    method Stop(fails: bool) returns (ok: bool)
      modifies this`vmUp, this`stopsIssued, this`network
      ensures ok <==> old(status).Stopped? || (!old(status).Paused? && !fails)
      ensures network == (old(network) && !ok)
      ensures old(status).Created? || old(status).Running? ==>
                stopsIssued == old(stopsIssued) + 1 && vmUp == (old(vmUp) && fails)
      ensures old(status).Stopped? || old(status).Paused? ==> stopsIssued == old(stopsIssued) && vmUp == old(vmUp)
    {
      if status.Stopped? { network := false; return true; }
      if status.Paused? { return false; }
      ok := VmStop(fails);
      if !ok { return; }
      network := false;
    }

    /** `inject_warm_fork_task`: no client or a failed call is a missing reply. */
    method Inject(src: Source) returns (ok: bool)
      requires src.tasks.Some?
      ensures ok <==> src.reply.Some? && HostAccepts(src.tasks.value, src.reply.value)
    {
      if src.reply.None? { return false; }
      ok := HostCheck(src.tasks.value, src.reply.value);
    }

    /** `try_restore`, with the phase it ends in. Whatever fails after the VM is up, the VM is stopped
        and the sandbox is not marked running; a WarmFork sandbox is marked running only on a reply
        the host accepts. */
    method TryRestore(f: Faults, src: Source) returns (ok: bool, phase: RestorePhase)
      modifies this`status, this`vmUp, this`stopsIssued, this`storages, this`restore
      ensures ok <==> RestoreWorks(f, src, virtioBlk)
      ensures ok <==> phase.Committed?
      ensures ok ==> status == Running(src.pid) && vmUp && stopsIssued == old(stopsIssued)
      ensures !ok ==> status == old(status)
      ensures !ok ==> stopsIssued == old(stopsIssued) + if f.vmRestore then 0 else 1
      ensures !ok ==> vmUp == if f.vmRestore then old(vmUp) else f.vmStop
      ensures restore == old(restore).(orphans := restore.orphans)
    {
      phase := RestoreVm;
      if f.vmRestore { return false, phase; }
      vmUp := true;
      phase := InitClient;
      if f.initClient { var _ := VmStop(f.vmStop); return false, phase; }
      match src.template.kind {
        case WarmFork =>
          phase := HotplugNetwork;
          if f.hotplug { var _ := VmStop(f.vmStop); return false, phase; }
          storages := src.storages;
          restore := restore.(orphans := src.orphans);
          if (virtioBlk && f.pushFiles) || f.refreshIdentity { var _ := VmStop(f.vmStop); return false, phase; }
          phase := InjectingTask;
          if src.tasks.None? { var _ := VmStop(f.vmStop); return false, phase; }
          var injected := Inject(src);
          if !injected { var _ := VmStop(f.vmStop); return false, phase; }
        case Continuation =>
          storages := src.storages;
          restore := restore.(orphans := src.orphans);
          phase := TransferNetworkIdentity;
        case Environment =>
          phase := HotplugNetwork;
          if f.hotplug { var _ := VmStop(f.vmStop); return false, phase; }
          if virtioBlk {
            phase := PushSandboxFiles;
            if f.pushFiles { var _ := VmStop(f.vmStop); return false, phase; }
          }
          phase := SetupSandbox;
          if f.setupSandbox { var _ := VmStop(f.vmStop); return false, phase; }
      }
      phase := Committed;
      status := Running(src.pid);
      return true, phase;
    }

    /** `dump` of the sandbox. */
    method Dump(d: Dumping) returns (ok: bool)
      modifies this`dumped
      ensures ok <==> d.Written? || d.Skipped?
      ensures dumped == match d case Written => Some(restore) case Torn => None case _ => old(dumped)
    {
      match d
      case Written => dumped := Some(restore); return true;
      case Skipped => return true;
      case NotOpened => return false;
      case Torn => dumped := None; return false;
    }

    method DestroyNetwork()
      modifies this`network
      ensures !network
    {
      network := false;
    }

    /** The tail of `start_from_snapshot` once a step after the restore has failed: unpin, clear,
        stop; the network goes only if the stop works. */
    method RollBack(pool: TemplatePool, pinned: bool, f: Faults)
      requires restore.templateId.Some? && status.Running?
      modifies this`restore, this`vmUp, this`stopsIssued, this`network, pool`inUse
      ensures pool.inUse == if pinned then Decrement(old(pool.inUse), old(restore.templateId.value)) else old(pool.inUse)
      ensures restore == DefaultMeta && stopsIssued == old(stopsIssued) + 1
      ensures network == (old(network) && f.vmStop) && vmUp == (old(vmUp) && f.vmStop)
    {
      if pinned { pool.inUse := Decrement(pool.inUse, restore.templateId.value); }
      restore := DefaultMeta;
      var stopped := Stop(f.vmStop);
      if !stopped { return; }
      DestroyNetwork();
    }

    /** The steps of `start_from_snapshot` after the restore. */
    method FinishStart(pool: TemplatePool, pinned: bool, f: Faults) returns (ok: bool)
      requires restore.templateId.Some? && status.Running?
      modifies this`restore, this`vmUp, this`stopsIssued, this`network, this`dumped, pool`inUse
      ensures ok <==> !LateFailure(f)
      ensures ok ==> pool.inUse == old(pool.inUse) && restore == old(restore) && network == old(network) && vmUp == old(vmUp)
      ensures dumped == FileLeft(f, old(restore), old(dumped))
      ensures !ok ==>
                && pool.inUse == (if pinned then Decrement(old(pool.inUse), old(restore.templateId.value)) else old(pool.inUse))
                && restore == DefaultMeta && network == (old(network) && f.vmStop) && vmUp == (old(vmUp) && f.vmStop)
    {
      if f.addToCgroup || f.postStart { RollBack(pool, pinned, f); return false; }
      ok := Dump(f.dump);
      if !ok { RollBack(pool, pinned, f); }
    }

    /** The network of `start_from_snapshot`: what was made of it goes if making it fails. */
    method ConnectNetwork(f: Faults, src: Source) returns (ok: bool)
      modifies this`network
      ensures ok <==> !(MakesNetwork(src, netns) && f.prepareNetwork)
      ensures network == if MakesNetwork(src, netns) then ok else old(network)
    {
      if MakesNetwork(src, netns) {
        network := !f.prepareNetwork || f.networkHalfMade;
        if f.prepareNetwork { DestroyNetwork(); return false; }
      }
      return true;
    }

    /** The restore of `start_from_snapshot`: a failure clears metadata and network. */
    method RestoreOrClear(f: Faults, src: Source) returns (ok: bool)
      modifies this`status, this`vmUp, this`stopsIssued, this`storages, this`restore, this`network
      ensures ok <==> RestoreWorks(f, src, virtioBlk)
      ensures ok ==> status == Running(src.pid) && vmUp && network == old(network) && restore == old(restore).(orphans := restore.orphans)
      ensures !ok ==> status == old(status) && vmUp == (if f.vmRestore then old(vmUp) else f.vmStop) && !network && restore == DefaultMeta
    {
      var phase;
      ok, phase := TryRestore(f, src);
      if !ok {
        restore := DefaultMeta;
        DestroyNetwork();
      }
    }

    /** `start_from_snapshot` of the sandboxer, whatever state an earlier attempt left the sandbox in.
        Before the metadata is set a failure leaves it alone; after that, every failure clears it and
        gives the pin back. A failure after the restore leaves the sandbox marked running; its VM, and
        then its network too, is there only if the VM could not be stopped. */
    method StartFromSnapshot(pool: TemplatePool, f: Faults, src: Source) returns (ok: bool)
      requires NoZero(pool.inUse)
      modifies this, pool`inUse
      ensures ok <==> Stage(f, src, virtioBlk, netns) == Up
      ensures match Stage(f, src, virtioBlk, netns)
              case Early => restore == old(restore) && status == old(status) && vmUp == old(vmUp) && dumped == old(dumped)
              case Restoring => restore == DefaultMeta && status == old(status) && vmUp == (if f.vmRestore then old(vmUp) else f.vmStop)
                                && dumped == old(dumped)
              case Late => restore == DefaultMeta && status == Running(src.pid) && vmUp == f.vmStop
                           && dumped == (if Tears(f) then None else old(dumped))
              case Up => restore == MetaFor(pool.mode, src.template, src.memory, src.disks, restore.orphans)
                         && dumped == (if f.dump.Written? then Some(restore) else old(dumped))
                         && status == Running(src.pid) && vmUp && idGenerator == src.idGenerator
      ensures network == match Stage(f, src, virtioBlk, netns)
                         case Early => f.preStart && old(network)
                         case Restoring => false
                         case Late => f.vmStop && (old(network) || MakesNetwork(src, netns))
                         case Up => old(network) || MakesNetwork(src, netns)
      ensures pool.inUse == if ok && PinsEnvironment(src) then Increment(old(pool.inUse), src.template.id) else old(pool.inUse)
    {
      if f.preStart { return false; }
      var connected := ConnectNetwork(f, src);
      if !connected { return false; }
      ok := StartConnected(pool, f, src);
    }

    /** The part of it with the network made: the metadata, the restore, the last steps. */
    method StartConnected(pool: TemplatePool, f: Faults, src: Source) returns (ok: bool)
      requires NoZero(pool.inUse)
      modifies this, pool`inUse
      ensures ok <==> RestoreWorks(f, src, virtioBlk) && !LateFailure(f)
      ensures !RestoreWorks(f, src, virtioBlk) ==>
                restore == DefaultMeta && status == old(status) && vmUp == (if f.vmRestore then old(vmUp) else f.vmStop)
                && dumped == old(dumped) && !network
      ensures RestoreWorks(f, src, virtioBlk) && LateFailure(f) ==>
                restore == DefaultMeta && status == Running(src.pid) && vmUp == f.vmStop
                && dumped == (if Tears(f) then None else old(dumped)) && network == (old(network) && f.vmStop)
      ensures ok ==> restore == MetaFor(pool.mode, src.template, src.memory, src.disks, restore.orphans)
                     && dumped == (if f.dump.Written? then Some(restore) else old(dumped))
                     && status == Running(src.pid) && vmUp && idGenerator == src.idGenerator && network == old(network)
      ensures pool.inUse == if ok && PinsEnvironment(src) then Increment(old(pool.inUse), src.template.id) else old(pool.inUse)
    {
      restore := MetaFor(pool.mode, src.template, src.memory, src.disks, restore.orphans);
      var restored := RestoreOrClear(f, src);
      if !restored { return false; }
      UpThenDown(pool.inUse, src.template.id);
      ok := RunRestored(pool, f, src);
    }

    /** The part of it after the VM is up: the pin, the id counter, the last steps. */
    method RunRestored(pool: TemplatePool, f: Faults, src: Source) returns (ok: bool)
      requires restore == MetaFor(pool.mode, src.template, src.memory, src.disks, restore.orphans) && status.Running?
      modifies this`restore, this`vmUp, this`stopsIssued, this`network, this`dumped, this`idGenerator, pool`inUse
      ensures ok <==> !LateFailure(f)
      ensures dumped == FileLeft(f, old(restore), old(dumped))
      ensures ok ==> restore == old(restore) && network == old(network) && vmUp == old(vmUp) && idGenerator == src.idGenerator
                     && pool.inUse == if PinsEnvironment(src) then Increment(old(pool.inUse), src.template.id) else old(pool.inUse)
      ensures !ok ==> restore == DefaultMeta && network == (old(network) && f.vmStop) && vmUp == (old(vmUp) && f.vmStop)
                      && pool.inUse == if PinsEnvironment(src)
                                       then Decrement(Increment(old(pool.inUse), src.template.id), src.template.id) else old(pool.inUse)
    {
      var pinned := PinsEnvironment(src);
      if pinned { pool.inUse := Increment(pool.inUse, restore.templateId.value); }
      idGenerator := src.idGenerator;
      ok := FinishStart(pool, pinned, f);
    }
  }

  /** How far an attempt gets: it fails before the metadata is written, while restoring, or after the
      VM runs, or it works. */
  datatype Reached = Early | Restoring | Late | Up

  function Stage(f: Faults, src: Source, virtioBlk: bool, netns: bool): Reached {
    if EarlyFailure(f, src, netns) then Early
    else if !RestoreWorks(f, src, virtioBlk) then Restoring
    else if LateFailure(f) then Late
    else Up
  }

  predicate MakesNetwork(src: Source, netns: bool) {
    netns && !src.template.kind.Continuation?
  }

  /** Failures before the metadata is written. */
  predicate EarlyFailure(f: Faults, src: Source, netns: bool) {
    f.preStart || (MakesNetwork(src, netns) && f.prepareNetwork)
  }

  /** Failures after the VM runs: moving it to its cgroup, the hook, the dump. */
  predicate LateFailure(f: Faults) {
    f.addToCgroup || f.postStart || f.dump.NotOpened? || f.dump.Torn?
  }

  /** The last steps are reached and the file is left unreadable. */
  predicate Tears(f: Faults) {
    !f.addToCgroup && !f.postStart && f.dump.Torn?
  }

  /** The sandbox's file after the last steps. */
  function FileLeft(f: Faults, restore: RestoreMeta, dumped: Option<RestoreMeta>): Option<RestoreMeta> {
    if f.addToCgroup || f.postStart then dumped
    else match f.dump
      case Written => Some(restore)
      case Torn => None
      case _ => dumped
  }

  predicate PinsEnvironment(src: Source) {
    src.template.kind.Environment? && NonCopy(Some(src.memory))
  }

  // ---- Whole requests, as runs of `TemplateRefs` ----

  /** The pool with its directories, and the record and file of one sandbox. */
  datatype Local = Local(pool: Pool, dirs: Marks, sb: Refs.Sandbox, dump: Option<RestoreMeta>)

  function Did(l: Local, a: Refs.Act): Local
    requires Refs.Ready(l.sb.op, a)
  {
    Local(Refs.NextPool(l.pool, l.sb, a),
          Marks(Refs.NextConsumed(l.dirs.consumed, l.pool.mode, l.sb, a), Refs.NextRemoved(l.dirs.removed, l.dirs.consumed, l.sb, a)),
          Refs.NextSandbox(l.pool.mode, l.sb, a),
          Refs.FileAfter(l.dump, l.sb, a))
  }

  /** What a sequence of acts makes of them. */
  function Perform(l: Local, acts: seq<Refs.Act>): Option<Local>
    decreases |acts|
  {
    if acts == [] then Some(l)
    else if Refs.Can(l.pool.available, l.sb, acts[0]) then Perform(Did(l, acts[0]), acts[1..])
    else None
  }

  lemma {:induction false} PerformMore(l: Local, a: Refs.Act, acts: seq<Refs.Act>)
    requires Refs.Can(l.pool.available, l.sb, a)
    ensures Perform(l, [a] + acts) == Perform(Did(l, a), acts)
  {
    assert ([a] + acts)[1..] == acts;
  }

  lemma {:induction false} PerformOne(l: Local, a: Refs.Act)
    requires Refs.Can(l.pool.available, l.sb, a)
    ensures Perform(l, [a]) == Some(Did(l, a))
  {
    assert [a][1..] == [];
  }

  /** The acts of one attempt after the template is acquired; a VM of an earlier restore may run on. */
  function Attempt(f: Faults, src: Source, virtioBlk: bool, netns: bool, orphans: seq<string>, runsOn: bool): seq<Refs.Act> {
    var record := Refs.SetMeta(src.memory, src.disks, orphans, runsOn);
    var fail := Refs.FailLease(!f.unmark);
    if f.validate then [fail]
    else match Stage(f, src, virtioBlk, netns)
      case Early => [fail]
      case Restoring => [record] + ([Refs.RestoreFails(!f.vmRestore && f.vmStop)] + [fail])
      case Late => [record] + ([Refs.RestoreWorks] + ([Refs.PostRestoreFails(Tears(f), f.vmStop)] + [fail]))
      case Up => [record] + ([Refs.RestoreWorks] + ([Refs.Dump(f.dump.Skipped?)] + [Refs.Complete]))
  }

  predicate AttemptGoesUp(f: Faults, src: Source, virtioBlk: bool, netns: bool) {
    !f.validate && Stage(f, src, virtioBlk, netns) == Up
  }

  function Pinned(p: Pool, m: RestoreMeta): Pool {
    if NeedsPin(m) then p.(inUse := Increment(p.inUse, m.templateId.value)) else p
  }

  function PoolAfter(p: Pool, f: Faults, src: Source, virtioBlk: bool, netns: bool): Pool {
    if AttemptGoesUp(f, src, virtioBlk, netns) then LeaseEnds(Acquired(p, LeaseOn(p, src.template)), LeaseOn(p, src.template), true, src)
    else p
  }

  /** An exclusive template is marked if the attempt works, or fails and the marker resists. */
  function MarksAfter(d: Marks, p: Pool, f: Faults, src: Source, virtioBlk: bool, netns: bool): Marks {
    if AttemptGoesUp(f, src, virtioBlk, netns) || f.unmark then Marked(d, LeaseOn(p, src.template))
    else Unmarked(d, LeaseOn(p, src.template))
  }

  function MetaAfter(m: RestoreMeta, mode: LeaseMode, f: Faults, src: Source, virtioBlk: bool, netns: bool, orphans: seq<string>): RestoreMeta {
    if f.validate || Stage(f, src, virtioBlk, netns) == Early then m
    else if Stage(f, src, virtioBlk, netns) == Up then MetaFor(mode, src.template, src.memory, src.disks, orphans)
    else DefaultMeta
  }

  function DumpAfter(dump: Option<RestoreMeta>, mode: LeaseMode, f: Faults, src: Source, virtioBlk: bool, netns: bool, orphans: seq<string>): Option<RestoreMeta> {
    if f.validate || Stage(f, src, virtioBlk, netns) == Early || Stage(f, src, virtioBlk, netns) == Restoring then dump
    else FileLeft(f, MetaFor(mode, src.template, src.memory, src.disks, orphans), dump)
  }

  /** The pool once a lease has ended, with the pin of a restore that worked. */
  function LeaseEnds(p: Pool, l: Lease, up: bool, src: Source): Pool {
    if up then Completed(Pinned(p, MetaFor(p.mode, src.template, src.memory, src.disks, [])), l) else Failed(p, l)
  }

  /** A whole attempt, from the acquired template to the completed or failed lease. A failed attempt
      leaves every counter and the pool as they were. */
  method RestoreFromTemplate(sb: Sandbox, pool: TemplatePool, f: Faults, src: Source) returns (ok: bool)
    requires src.template in pool.available && !src.template.kind.Continuation?
    requires NoZero(pool.inUse) && NoZero(pool.inFlight)
    modifies sb, pool
    ensures ok <==> AttemptGoesUp(f, src, sb.virtioBlk, sb.netns)
    ensures pool.Contents() == PoolAfter(old(pool.Contents()), f, src, sb.virtioBlk, sb.netns)
    ensures pool.Directories() == MarksAfter(old(pool.Directories()), old(pool.Contents()), f, src, sb.virtioBlk, sb.netns)
    ensures sb.restore == MetaAfter(old(sb.restore), pool.mode, f, src, sb.virtioBlk, sb.netns, sb.restore.orphans)
    ensures !ok && !f.vmStop && !old(sb.network) && !old(sb.vmUp) ==> !sb.network && !sb.vmUp
    ensures ok ==> sb.status == Running(src.pid) && sb.vmUp
    ensures sb.dumped == DumpAfter(old(sb.dumped), pool.mode, f, src, sb.virtioBlk, sb.netns, sb.restore.orphans)
    ensures ok && src.template.kind.WarmFork? ==>
              src.tasks.Some? && src.reply.Some? && HostAccepts(src.tasks.value, src.reply.value)
  {
    var l := LeaseOn(pool.Contents(), src.template);
    FailUndoesAcquire(pool.Contents(), src.template);
    MarkedTwice(pool.Directories(), l);
    pool.Acquire(src.template);
    ok := RestoreWithLease(sb, pool, l, f, src);
  }

  /** The attempt once the template is acquired. */
  method RestoreWithLease(sb: Sandbox, pool: TemplatePool, l: Lease, f: Faults, src: Source) returns (ok: bool)
    requires NoZero(pool.inUse) && l.template == src.template
    modifies sb, pool
    ensures ok <==> AttemptGoesUp(f, src, sb.virtioBlk, sb.netns)
    ensures pool.Contents() == LeaseEnds(old(pool.Contents()), l, ok, src)
    ensures pool.Directories() == if ok || f.unmark then old(pool.Directories()) else Unmarked(old(pool.Directories()), l)
    ensures sb.restore == MetaAfter(old(sb.restore), pool.mode, f, src, sb.virtioBlk, sb.netns, sb.restore.orphans)
    ensures !ok && !f.vmStop && !old(sb.network) && !old(sb.vmUp) ==> !sb.network && !sb.vmUp
    ensures ok ==> sb.status == Running(src.pid) && sb.vmUp
    ensures sb.dumped == DumpAfter(old(sb.dumped), pool.mode, f, src, sb.virtioBlk, sb.netns, sb.restore.orphans)
    ensures ok && src.template.kind.WarmFork? ==>
              src.tasks.Some? && src.reply.Some? && HostAccepts(src.tasks.value, src.reply.value)
  {
    if f.validate {
      pool.Fail(l, f.unmark);
      return false;
    }
    ok := sb.StartFromSnapshot(pool, f, src);
    if ok { pool.Complete(l); } else { pool.Fail(l, f.unmark); }
  }

  lemma {:induction false} MarkedTwice(d: Marks, l: Lease)
    ensures Unmarked(Marked(d, l), l) == Unmarked(d, l)
  {
    assert d.consumed + {l.template} - {l.template} == d.consumed - {l.template};
  }

  /** A successful attempt leaves exactly the reference that a later delete of the sandbox gives back,
      and no restore in flight. */
  lemma {:induction false} AttemptLeavesOneReference(p: Pool, f: Faults, src: Source, virtioBlk: bool, netns: bool, orphans: seq<string>)
    requires NoZero(p.inUse) && NoZero(p.inFlight) && src.template in p.available && !src.template.kind.Continuation?
    requires AttemptGoesUp(f, src, virtioBlk, netns)
    ensures var p' := PoolAfter(p, f, src, virtioBlk, netns);
            p'.inFlight == p.inFlight &&
            match Released(MetaFor(p.mode, src.template, src.memory, src.disks, orphans))
            case Some(t) => t == src.template.id && p'.inUse == Increment(p.inUse, t)
            case None => p'.inUse == p.inUse
  {
    UpThenDown(p.inFlight, src.template.id);
  }

  /** The attempt is a run of acts of the sandbox, with the same pool, directories, metadata and file at
      its end. */
  lemma {:induction false} AttemptIsRun(p: Pool, d: Marks, m: RestoreMeta, dump: Option<RestoreMeta>, f: Faults, src: Source,
                                        virtioBlk: bool, netns: bool, orphans: seq<string>, runsOn: bool)
    requires NoZero(p.inUse) && NoZero(p.inFlight) && src.template in p.available && !src.template.kind.Continuation?
    ensures Perform(Local(p, d, Refs.Sandbox(m, Refs.Idle), dump),
                    [Refs.Acquire(src.template)] + Attempt(f, src, virtioBlk, netns, orphans, runsOn))
            == Some(Local(PoolAfter(p, f, src, virtioBlk, netns),
                          MarksAfter(d, p, f, src, virtioBlk, netns),
                          Refs.Sandbox(MetaAfter(m, p.mode, f, src, virtioBlk, netns, orphans), Refs.Idle),
                          DumpAfter(dump, p.mode, f, src, virtioBlk, netns, orphans)))
  {
    var l := LeaseOn(p, src.template);
    FailUndoesAcquire(p, src.template);
    MarkedTwice(d, l);
    PerformMore(Local(p, d, Refs.Sandbox(m, Refs.Idle), dump), Refs.Acquire(src.template), Attempt(f, src, virtioBlk, netns, orphans, runsOn));
    LeaseIsRun(Acquired(p, l), Marked(d, l), m, dump, l, f, src, virtioBlk, netns, orphans, runsOn);
  }

  lemma {:induction false} LeaseIsRun(p: Pool, d: Marks, m: RestoreMeta, dump: Option<RestoreMeta>, l: Lease, f: Faults, src: Source,
                                      virtioBlk: bool, netns: bool, orphans: seq<string>, runsOn: bool)
    requires NoZero(p.inUse) && l.template == src.template
    ensures var up := AttemptGoesUp(f, src, virtioBlk, netns);
            Perform(Local(p, d, Refs.Sandbox(m, Refs.Leased(l)), dump), Attempt(f, src, virtioBlk, netns, orphans, runsOn))
            == Some(Local(LeaseEnds(p, l, up, src),
                          if up || f.unmark then d else Unmarked(d, l),
                          Refs.Sandbox(MetaAfter(m, p.mode, f, src, virtioBlk, netns, orphans), Refs.Idle),
                          DumpAfter(dump, p.mode, f, src, virtioBlk, netns, orphans)))
  {
    var leased := Local(p, d, Refs.Sandbox(m, Refs.Leased(l)), dump);
    if AttemptGoesUp(f, src, virtioBlk, netns) {
      Works(leased, Refs.SetMeta(src.memory, src.disks, orphans, runsOn), f.dump.Skipped?);
    } else if f.validate || Stage(f, src, virtioBlk, netns) == Early {
      PerformOne(leased, Refs.FailLease(!f.unmark));
    } else {
      LeaseFails(leased, f, src, virtioBlk, netns, orphans, runsOn);
    }
  }

  lemma {:induction false} LeaseFails(x: Local, f: Faults, src: Source, virtioBlk: bool, netns: bool, orphans: seq<string>, runsOn: bool)
    requires x.sb.op.Leased? && NoZero(x.pool.inUse) && !f.validate
    requires Stage(f, src, virtioBlk, netns) == Restoring || Stage(f, src, virtioBlk, netns) == Late
    ensures Perform(x, Attempt(f, src, virtioBlk, netns, orphans, runsOn))
            == Some(Failing(x, x.sb.op.lease, DumpAfter(x.dump, x.pool.mode, f, src, virtioBlk, netns, orphans), !f.unmark))
  {
    var record := Refs.SetMeta(src.memory, src.disks, orphans, runsOn);
    if Stage(f, src, virtioBlk, netns) == Restoring {
      RestoringFails(x, record, !f.vmRestore && f.vmStop, !f.unmark);
    } else {
      LateFails(x, record, Tears(f), f.vmStop, !f.unmark);
    }
  }

  /** The record after a step that sets the metadata. */
  function MetaSet(x: Local, record: Refs.Act): RestoreMeta
    requires x.sb.op.Leased? && record.SetMeta?
  {
    MetaFor(x.pool.mode, x.sb.op.lease.template, record.memory, record.disks, record.orphans)
  }

  function Failing(x: Local, l: Lease, dump: Option<RestoreMeta>, unmarked: bool): Local {
    Local(Failed(x.pool, l), if unmarked then Unmarked(x.dirs, l) else x.dirs, Refs.Sandbox(DefaultMeta, Refs.Idle), dump)
  }

  lemma {:induction false} RestoringFails(x: Local, record: Refs.Act, vmLeft: bool, unmarked: bool)
    requires x.sb.op.Leased? && record.SetMeta?
    ensures Perform(x, [record] + ([Refs.RestoreFails(vmLeft)] + [Refs.FailLease(unmarked)]))
            == Some(Failing(x, x.sb.op.lease, x.dump, unmarked))
  {
    PerformMore(x, record, [Refs.RestoreFails(vmLeft)] + [Refs.FailLease(unmarked)]);
    PerformMore(Did(x, record), Refs.RestoreFails(vmLeft), [Refs.FailLease(unmarked)]);
    PerformOne(Did(Did(x, record), Refs.RestoreFails(vmLeft)), Refs.FailLease(unmarked));
  }

  lemma {:induction false} LateFails(x: Local, record: Refs.Act, torn: bool, vmLeft: bool, unmarked: bool)
    requires x.sb.op.Leased? && record.SetMeta? && NoZero(x.pool.inUse)
    ensures Perform(x, [record] + ([Refs.RestoreWorks] + ([Refs.PostRestoreFails(torn, vmLeft)] + [Refs.FailLease(unmarked)])))
            == Some(Failing(x, x.sb.op.lease, if torn then None else x.dump, unmarked))
  {
    var undo := [Refs.PostRestoreFails(torn, vmLeft)] + [Refs.FailLease(unmarked)];
    UpThenDown(x.pool.inUse, x.sb.op.lease.template.id);
    PerformMore(x, record, [Refs.RestoreWorks] + undo);
    PerformMore(Did(x, record), Refs.RestoreWorks, undo);
    var y := Did(Did(x, record), Refs.RestoreWorks);
    PerformMore(y, Refs.PostRestoreFails(torn, vmLeft), [Refs.FailLease(unmarked)]);
    PerformOne(Did(y, Refs.PostRestoreFails(torn, vmLeft)), Refs.FailLease(unmarked));
  }

  lemma {:induction false} Works(x: Local, record: Refs.Act, skipped: bool)
    requires x.sb.op.Leased? && record.SetMeta?
    ensures Perform(x, [record] + ([Refs.RestoreWorks] + ([Refs.Dump(skipped)] + [Refs.Complete])))
            == Some(Local(Completed(Pinned(x.pool, MetaSet(x, record)), x.sb.op.lease), x.dirs,
                          Refs.Sandbox(MetaSet(x, record), Refs.Idle), if skipped then x.dump else Some(MetaSet(x, record))))
  {
    PerformMore(x, record, [Refs.RestoreWorks] + ([Refs.Dump(skipped)] + [Refs.Complete]));
    PerformMore(Did(x, record), Refs.RestoreWorks, [Refs.Dump(skipped)] + [Refs.Complete]);
    var y := Did(Did(x, record), Refs.RestoreWorks);
    PerformMore(y, Refs.Dump(skipped), [Refs.Complete]);
    PerformOne(Did(y, Refs.Dump(skipped)), Refs.Complete);
  }

  /** What can go wrong with a delete: any of its calls, the file of the sandbox being lost with a
      directory that is removed in part, and the clean-up of the template. */
  datatype DeleteFaults = DeleteFaults(stop: bool, cgroup: bool, unmount: bool, removeDir: bool, torn: bool, cleanup: bool)

  /** The acts of a delete: none if the sandbox cannot be stopped. */
  function DeleteActs(status: Status, f: DeleteFaults): seq<Refs.Act> {
    if !(status.Stopped? || (!status.Paused? && !f.stop)) then []
    else if f.cgroup || f.unmount then [Refs.DeleteStarts({})] + [Refs.DeleteFails(false)]
    else if f.removeDir then [Refs.DeleteStarts({})] + [Refs.DeleteFails(f.torn)]
    else [Refs.DeleteStarts({})] + ([Refs.RemoveDir] + [Refs.Dereference(!f.cleanup)])
  }

  /** `delete`: stop, remove the cgroup, the mounts and the directory, and only then give back the
      reference the metadata stands for, or clean up a consumed template; any failure on the way keeps
      sandbox, reference and template. */
  method Delete(sb: Sandbox, pool: TemplatePool, f: DeleteFaults) returns (ok: bool)
    modifies sb`vmUp, sb`stopsIssued, sb`network, sb`dumped, pool`inUse, pool`consumed, pool`removed
    ensures ok <==> (sb.status.Stopped? || (!sb.status.Paused? && !f.stop)) && !f.cgroup && !f.unmount && !f.removeDir
    ensures !ok ==> pool.inUse == old(pool.inUse) && pool.Directories() == old(pool.Directories())
    ensures ok ==> !sb.network && sb.dumped.None?
    ensures ok && (forall t :: !HoldsPin(sb.restore, t)) ==> pool.inUse == old(pool.inUse)
    ensures forall t :: ok && HoldsPin(sb.restore, t) ==> pool.inUse == Decrement(old(pool.inUse), t)
    ensures pool.removed == old(pool.removed) + if ok && !f.cleanup then Refs.Cleaned(old(pool.consumed), sb.restore) else {}
    ensures Perform(Local(old(pool.Contents()), old(pool.Directories()), Refs.Sandbox(sb.restore, Refs.Idle), old(sb.dumped)),
                    DeleteActs(sb.status, f))
            == Some(Local(pool.Contents(), pool.Directories(), Refs.Sandbox(sb.restore, if ok then Refs.Dereferenced else Refs.Idle), sb.dumped))
  {
    ghost var before := Local(pool.Contents(), pool.Directories(), Refs.Sandbox(sb.restore, Refs.Idle), sb.dumped);
    DeletePerforms(before, sb.status, f);
    var stopped := sb.Stop(f.stop);
    if !stopped || f.cgroup || f.unmount { return false; }
    if f.removeDir {
      if f.torn { sb.dumped := None; }
      return false;
    }
    sb.dumped := None;
    match Released(sb.restore) {
      case Some(t) =>
        assert HoldsPin(sb.restore, t);
        pool.inUse := Decrement(pool.inUse, t);
      case None =>
        assert forall t :: !HoldsPin(sb.restore, t);
    }
    if CleanedUp(sb.restore).Some? {
      assert Refs.Cleaned(pool.consumed, sb.restore) == set t | t in pool.consumed && t.id == CleanedUp(sb.restore).value;
      pool.CleanupConsumed(CleanedUp(sb.restore).value, f.cleanup);
    } else {
      assert Refs.Cleaned(pool.consumed, sb.restore) == {};
      assert pool.consumed - {} == pool.consumed && pool.removed + {} == pool.removed;
    }
    return true;
  }

  lemma {:induction false} DeletePerforms(x: Local, status: Status, f: DeleteFaults)
    requires x.sb.op.Idle?
    ensures var stopped := status.Stopped? || (!status.Paused? && !f.stop);
            var ok := stopped && !f.cgroup && !f.unmount && !f.removeDir;
            var cleaned := Refs.Cleaned(x.dirs.consumed, x.sb.meta);
            Perform(x, DeleteActs(status, f))
            == Some(Local(match Released(x.sb.meta)
                          case Some(t) => if ok then x.pool.(inUse := Decrement(x.pool.inUse, t)) else x.pool
                          case None => x.pool,
                          if ok && !f.cleanup then Marks(x.dirs.consumed - cleaned, x.dirs.removed + cleaned) else x.dirs,
                          x.sb.(op := if ok then Refs.Dereferenced else Refs.Idle),
                          if ok || (stopped && !f.cgroup && !f.unmount && f.torn) then None else x.dump))
  {
    var y := Did(x, Refs.DeleteStarts({}));
    if !(status.Stopped? || (!status.Paused? && !f.stop)) {
    } else if f.cgroup || f.unmount || f.removeDir {
      var fails := Refs.DeleteFails(!f.cgroup && !f.unmount && f.torn);
      PerformMore(x, Refs.DeleteStarts({}), [fails]);
      PerformOne(y, fails);
    } else {
      PerformMore(x, Refs.DeleteStarts({}), [Refs.RemoveDir] + [Refs.Dereference(!f.cleanup)]);
      PerformMore(y, Refs.RemoveDir, [Refs.Dereference(!f.cleanup)]);
      PerformOne(Did(y, Refs.RemoveDir), Refs.Dereference(!f.cleanup));
    }
  }
}
