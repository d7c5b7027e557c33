/** What evictions and clean-ups do to the templates that sandboxes run from, over the runs of
    `TemplateRefs`.
 */
module TemplateEviction {
  import opened Wrappers
  import opened Templates
  import opened TemplateRefs

  // ---- When a template can be evicted ----

  predicate NoHolder(s: State, t: string) {
    && (forall id :: id in s.sandboxes ==> !Plays(Pins, s.sandboxes[id], t) && !Plays(Refs, s.sandboxes[id], t))
    && s.lost[t] == 0
  }

  predicate NoFlight(s: State, t: string) {
    && (forall id :: id in s.sandboxes ==> !Plays(Flights, s.sandboxes[id], t))
    && s.leaked[t] == 0
  }

  lemma {:induction false} NoPlayers(role: Role, sbs: map<string, Sandbox>, t: string)
    ensures |Players(role, sbs, t)| == 0 <==> forall id :: id in sbs ==> !Plays(role, sbs[id], t)
  {
    if |Players(role, sbs, t)| == 0 {
      forall id | id in sbs ensures !Plays(role, sbs[id], t) { assert id !in Players(role, sbs, t); }
    } else {
      var id :| id in Players(role, sbs, t);
    }
  }

  lemma {:induction false} CountersSay(s: State, t: string)
    requires Inv(s)
    ensures t !in s.pool.inUse <==> NoHolder(s, t)
    ensures t !in s.pool.inFlight <==> NoFlight(s, t)
  {
    NoPlayers(Pins, s.sandboxes, t);
    NoPlayers(Refs, s.sandboxes, t);
    NoPlayers(Flights, s.sandboxes, t);
    assert t in s.pool.inUse <==> CountOf(s.pool.inUse, t) > 0;
    assert t in s.pool.inFlight <==> CountOf(s.pool.inFlight, t) > 0;
  }

  /** After every run, whether an evictor passes over a template depends on the sandboxes that hold it
      and on nothing else; eviction by kind ignores the holders of a WarmFork template if the pool is
      Exclusive. A VM that runs unrecorded protects nothing. */
  lemma {:induction false} EvictableExactly(mode: LeaseMode, steps: seq<Step>, e: Evictor, t: Template)
    requires RunTo(mode, steps).Some?
    ensures var s := RunTo(mode, steps).value;
            var blind := e.EvictByKind? && !t.kind.Environment? && s.pool.mode.Exclusive?;
            var spares := (e.WaterLevel? || e.GcIfNeeded?) && t.kind.WarmFork? && s.pool.mode.Exclusive?;
            Evictable(e, s.pool, t) <==> NoFlight(s, t.id) && (blind || NoHolder(s, t.id)) && !spares
  {
    RunInv(mode, steps);
    CountersSay(RunTo(mode, steps).value, t.id);
  }

  // ---- What backs a sandbox ----

  /** The metadata says that a VM runs from the files of `t`. */
  predicate Recorded(m: RestoreMeta, t: Template) {
    NamedBy(m) == Some(t) && UsesFiles(m)
  }

  /** The files of template `t` back a VM of this sandbox, or are about to. */
  predicate Backs(sb: Sandbox, t: Template) {
    || (HasLease(sb.op) && sb.op.lease.template == t)
    || (Recorded(sb.meta, t) && (sb.op.Idle? || sb.op.Leased? || sb.op.Deleting?))
  }

  // ---- Exclusive ownership ----

  predicate OwnsMeta(m: RestoreMeta, t: Template) {
    m.templateId == Some(t.id) && m.kind == Some(WarmFork) && t.kind.WarmFork? && m.lease != Some(Shared)
  }

  predicate Owns(sb: Sandbox, t: Template) {
    || (HasLease(sb.op) && sb.op.lease == Lease(t, ExclusiveLease))
    || (OwnsMeta(sb.meta, t) && (sb.op.Idle? || sb.op.Leased? || sb.op.Deleting? || sb.op.Unlinked?))
  }

  /** The sandbox or its file has `t` to itself. */
  predicate Claims(sb: Sandbox, dump: Option<RestoreMeta>, t: Template) {
    Owns(sb, t) || (dump.Some? && OwnsMeta(dump.value, t))
  }

  predicate ClaimsIn(s: State, id: string, t: Template)
    requires id in s.sandboxes
  {
    Claims(s.sandboxes[id], DumpOf(s.disk, id), t)
  }

  predicate MetaOk(m: RestoreMeta) {
    && (m.templateId.Some? ==> m.kind.Some?)
    && (m.linked ==> m.kind == Some(WarmFork) && m.lease == Some(Exclusive))
  }

  /** A sandbox and its file. */
  predicate FileOk(sb: Sandbox, dump: Option<RestoreMeta>) {
    && MetaOk(sb.meta) && (dump.Some? ==> MetaOk(dump.value))
    && (sb.op.Unlinked? || sb.op.Dereferenced? ==> dump.None?)
    && (HasLease(sb.op) && sb.op.lease.kind.ExclusiveLease? && !sb.op.Dumped? ==>
          && (dump.Some? ==> !OwnsMeta(dump.value, sb.op.lease.template))
          && (sb.op.Leased? ==> !OwnsMeta(sb.meta, sb.op.lease.template)))
  }

  predicate EnvironmentId(known: set<Template>, t: string) {
    exists u :: u in known && u.id == t && u.kind.Environment?
  }

  /** A template that is named has been added. */
  predicate Named(known: set<Template>, m: RestoreMeta) {
    m.templateId.Some? ==> NamedBy(m).Some? && NamedBy(m).value in known
  }

  predicate NamesOk(known: set<Template>, sb: Sandbox, dump: Option<RestoreMeta>) {
    Named(known, sb.meta) && (dump.Some? ==> Named(known, dump.value))
  }

  ghost predicate OwnInv(s: State) {
    && s.disk.Keys <= s.sandboxes.Keys
    && s.consumed <= s.known && (forall t :: t in s.consumed ==> t.kind.WarmFork?)
    && (forall t :: s.leaked[t] > 0 ==> EnvironmentId(s.known, t))
    && (forall id :: id in s.sandboxes ==> FileOk(s.sandboxes[id], DumpOf(s.disk, id)))
    && (forall id :: id in s.sandboxes ==> NamesOk(s.known, s.sandboxes[id], DumpOf(s.disk, id)))
    && (forall id, t :: id in s.sandboxes && t in s.known && ClaimsIn(s, id, t) ==> t in s.consumed && t !in s.pool.available)
    && (forall id, jd, t :: id in s.sandboxes && jd in s.sandboxes && t in s.known && ClaimsIn(s, id, t) && ClaimsIn(s, jd, t) ==> id == jd)
  }

  // One act, without the rest of the state.

  lemma {:induction false} FileAfterIs(disk: map<string, RestoreMeta>, id: string, sb: Sandbox, a: Act, jd: string)
    ensures DumpOf(NextDump(disk, id, sb, a), jd) == if jd == id then FileAfter(DumpOf(disk, id), sb, a) else DumpOf(disk, jd)
  {}

  lemma {:induction false} FileStaysOk(mode: LeaseMode, known: set<Template>, sb: Sandbox, dump: Option<RestoreMeta>, a: Act)
    requires Ready(sb.op, a) && SandboxOk(mode, known, sb) && FileOk(sb, dump)
    requires a.Acquire? ==> !Claims(sb, dump, a.t)
    ensures FileOk(NextSandbox(mode, sb, a), FileAfter(dump, sb, a))
  {}

  lemma {:induction false} NamesStayOk(mode: LeaseMode, known: set<Template>, sb: Sandbox, dump: Option<RestoreMeta>, a: Act)
    requires Ready(sb.op, a) && SandboxOk(mode, known, sb) && NamesOk(known, sb, dump)
    ensures NamesOk(known, NextSandbox(mode, sb, a), FileAfter(dump, sb, a))
  {}

  /** Only an acquire makes a new claim. */
  lemma {:induction false} ClaimsGrow(mode: LeaseMode, known: set<Template>, sb: Sandbox, dump: Option<RestoreMeta>, a: Act, t: Template)
    requires Ready(sb.op, a) && SandboxOk(mode, known, sb) && FileOk(sb, dump)
    requires Claims(NextSandbox(mode, sb, a), FileAfter(dump, sb, a), t)
    ensures Claims(sb, dump, t) || (a.Acquire? && a.t == t && KindOfLease(mode, t.kind).ExclusiveLease?)
  {}

  /** Whoever gives a template back, or cleans it up, has claimed it and does so no longer. */
  lemma {:induction false} GivesUp(mode: LeaseMode, known: set<Template>, sb: Sandbox, dump: Option<RestoreMeta>, a: Act, t: Template)
    requires Ready(sb.op, a) && SandboxOk(mode, known, sb) && FileOk(sb, dump) && t in known
    requires forall u :: u in known ==> !u.kind.Continuation?
    requires forall u, v :: u in known && v in known && u.id == v.id ==> u == v
    requires || (a.FailLease? && sb.op.lease == Lease(t, ExclusiveLease))
             || (a.Dereference? && CleanedUp(sb.meta) == Some(t.id) && t.kind.WarmFork?)
    ensures Claims(sb, dump, t) && !Claims(NextSandbox(mode, sb, a), FileAfter(dump, sb, a), t)
  {}

  // One act, in the state.

  lemma {:induction false} ClaimAfter(s: State, id: string, a: Act, jd: string, t: Template)
    requires Inv(s) && OwnInv(s) && id in s.sandboxes && Can(s.pool.available, s.sandboxes[id], a)
    requires jd in s.sandboxes && t in s.known && ClaimsIn(ApplyAct(s, id, a), jd, t)
    ensures ClaimsIn(s, jd, t) || (jd == id && a.Acquire? && a.t == t && KindOfLease(s.pool.mode, t.kind).ExclusiveLease?)
  {
    FileAfterIs(s.disk, id, s.sandboxes[id], a, jd);
    if jd == id { ClaimsGrow(s.pool.mode, s.known, s.sandboxes[id], DumpOf(s.disk, id), a, t); }
  }

  lemma {:induction false} AcquiredIsFree(s: State, id: string, t: Template)
    requires Inv(s) && OwnInv(s) && id in s.sandboxes && t in s.pool.available
    ensures !ClaimsIn(s, id, t)
  {}

  /** What an act can do to a template that is consumed and out of the pool. */
  lemma {:induction false} ComesBack(p: Pool, consumed: set<Template>, sb: Sandbox, a: Act, t: Template)
    requires Ready(sb.op, a) && t in consumed && t !in p.available
    requires t !in NextConsumed(consumed, p.mode, sb, a) || t in NextPool(p, sb, a).available
    ensures (a.FailLease? && sb.op.lease == Lease(t, ExclusiveLease)) || (a.Dereference? && CleanedUp(sb.meta) == Some(t.id))
  {}

  lemma {:induction false} ClaimedStays(s: State, id: string, a: Act, jd: string, t: Template)
    requires Inv(s) && OwnInv(s) && id in s.sandboxes && Can(s.pool.available, s.sandboxes[id], a)
    requires jd in s.sandboxes && t in s.known && ClaimsIn(s, jd, t) && ClaimsIn(ApplyAct(s, id, a), jd, t)
    ensures t in ApplyAct(s, id, a).consumed && t !in ApplyAct(s, id, a).pool.available
  {
    var sb, s' := s.sandboxes[id], ApplyAct(s, id, a);
    if t !in s'.consumed || t in s'.pool.available {
      ComesBack(s.pool, s.consumed, sb, a, t);
      GivesUp(s.pool.mode, s.known, sb, DumpOf(s.disk, id), a, t);
      FileAfterIs(s.disk, id, sb, a, id);
      assert ClaimsIn(s, id, t);
    }
  }

  lemma {:induction false} ActClaims(s: State, id: string, a: Act, jd: string, t: Template)
    requires Inv(s) && OwnInv(s) && id in s.sandboxes && Can(s.pool.available, s.sandboxes[id], a)
    requires jd in s.sandboxes && t in s.known && ClaimsIn(ApplyAct(s, id, a), jd, t)
    ensures t in ApplyAct(s, id, a).consumed && t !in ApplyAct(s, id, a).pool.available
  {
    ClaimAfter(s, id, a, jd, t);
    if ClaimsIn(s, jd, t) { ClaimedStays(s, id, a, jd, t); }
  }

  lemma {:induction false} ActUnique(s: State, id: string, a: Act, jd: string, kd: string, t: Template)
    requires Inv(s) && OwnInv(s) && id in s.sandboxes && Can(s.pool.available, s.sandboxes[id], a)
    requires jd in s.sandboxes && kd in s.sandboxes && t in s.known
    requires ClaimsIn(ApplyAct(s, id, a), jd, t) && ClaimsIn(ApplyAct(s, id, a), kd, t)
    ensures jd == kd
  {
    ClaimAfter(s, id, a, jd, t);
    ClaimAfter(s, id, a, kd, t);
    if a.Acquire? && a.t == t {
      AcquiredIsFree(s, jd, t);
      AcquiredIsFree(s, kd, t);
    }
  }

  lemma {:induction false} ConsumedKinds(mode: LeaseMode, known: set<Template>, available: set<Template>, consumed: set<Template>, sb: Sandbox, a: Act)
    requires Can(available, sb, a) && available <= known && consumed <= known
    requires forall t :: t in known ==> !t.kind.Continuation?
    requires forall t :: t in consumed ==> t.kind.WarmFork?
    ensures NextConsumed(consumed, mode, sb, a) <= known
    ensures forall t :: t in NextConsumed(consumed, mode, sb, a) ==> t.kind.WarmFork?
  {}

  lemma {:induction false} ActOwnInv(s: State, id: string, a: Act)
    requires Inv(s) && OwnInv(s) && id in s.sandboxes && Can(s.pool.available, s.sandboxes[id], a)
    ensures OwnInv(ApplyAct(s, id, a))
  {
    var sb, s' := s.sandboxes[id], ApplyAct(s, id, a);
    if a.Acquire? { AcquiredIsFree(s, id, a.t); }
    FileStaysOk(s.pool.mode, s.known, sb, DumpOf(s.disk, id), a);
    ConsumedKinds(s.pool.mode, s.known, s.pool.available, s.consumed, sb, a);
    NamesStayOk(s.pool.mode, s.known, sb, DumpOf(s.disk, id), a);
    forall jd | jd in s'.sandboxes
      ensures FileOk(s'.sandboxes[jd], DumpOf(s'.disk, jd)) && NamesOk(s'.known, s'.sandboxes[jd], DumpOf(s'.disk, jd))
    {
      FileAfterIs(s.disk, id, sb, a, jd);
    }
    forall jd, t | jd in s'.sandboxes && t in s'.known && ClaimsIn(s', jd, t) ensures t in s'.consumed && t !in s'.pool.available {
      ActClaims(s, id, a, jd, t);
    }
    forall jd, kd, t | jd in s'.sandboxes && kd in s'.sandboxes && t in s'.known && ClaimsIn(s', jd, t) && ClaimsIn(s', kd, t)
      ensures jd == kd
    {
      ActUnique(s, id, a, jd, kd, t);
    }
    assert s'.disk.Keys <= s'.sandboxes.Keys;
  }

  lemma {:induction false} NamedMore(known: set<Template>, more: set<Template>, m: RestoreMeta)
    requires Named(known, m) && known <= more
    ensures Named(more, m)
  {}

  /** A step that adds no claim and brings nothing claimed back. */
  lemma {:induction false} CalmOwnInv(s: State, s': State)
    requires Inv(s) && OwnInv(s)
    requires s'.disk.Keys <= s'.sandboxes.Keys <= s.sandboxes.Keys && s.known <= s'.known && s'.consumed == s.consumed
    requires forall t :: s'.leaked[t] > 0 ==> EnvironmentId(s'.known, t)
    requires forall id :: id in s'.sandboxes ==> s'.sandboxes[id] == s.sandboxes[id] && DumpOf(s'.disk, id) == DumpOf(s.disk, id)
    requires forall id, t :: id in s'.sandboxes && t in s'.known && ClaimsIn(s', id, t) ==> t in s.known && t !in s'.pool.available
    ensures OwnInv(s')
  {
    forall id | id in s'.sandboxes ensures NamesOk(s'.known, s'.sandboxes[id], DumpOf(s'.disk, id)) {
      NamedMore(s.known, s'.known, s.sandboxes[id].meta);
      if id in s.disk { NamedMore(s.known, s'.known, s.disk[id]); }
    }
    forall id, t | id in s'.sandboxes && t in s'.known && ClaimsIn(s', id, t) ensures t in s'.consumed {
      assert ClaimsIn(s, id, t);
    }
    forall id, jd, t | id in s'.sandboxes && jd in s'.sandboxes && t in s'.known && ClaimsIn(s', id, t) && ClaimsIn(s', jd, t)
      ensures id == jd
    {
      assert ClaimsIn(s, id, t) && ClaimsIn(s, jd, t);
    }
  }

  lemma {:induction false} ClaimIsKnown(s: State, id: string, t: Template)
    requires Inv(s) && OwnInv(s) && id in s.sandboxes && ClaimsIn(s, id, t)
    ensures exists u :: u in s.known && u.id == t.id
  {
    assert NamesOk(s.known, s.sandboxes[id], DumpOf(s.disk, id));
    assert SandboxOk(s.pool.mode, s.known, s.sandboxes[id]);
  }

  lemma {:induction false} PoolOwnInv(s: State, step: Step)
    requires Inv(s) && OwnInv(s) && Enabled(s, step)
    requires step.AcquireWrongKind? || step.Choose? || step.Evict? || step.Spare? || step.Forget?
    ensures OwnInv(Apply(s, step))
  {
    var s' := Apply(s, step);
    if step.Forget? { assert FileOk(s.sandboxes[step.id], DumpOf(s.disk, step.id)); }
    forall id, t | id in s'.sandboxes && t in s'.known && ClaimsIn(s', id, t) ensures t !in s'.pool.available {
      assert ClaimsIn(s, id, t);
    }
    CalmOwnInv(s, s');
  }

  lemma {:induction false} AddOwnInv(s: State, t: Template)
    requires Inv(s) && OwnInv(s) && Enabled(s, AddTemplate(t))
    ensures OwnInv(Apply(s, AddTemplate(t)))
  {
    var s' := Apply(s, AddTemplate(t));
    forall id, u | id in s'.sandboxes && u in s'.known && ClaimsIn(s', id, u) ensures u in s.known && u !in s'.pool.available {
      assert ClaimsIn(s, id, u);
      ClaimIsKnown(s, id, u);
    }
    forall x | s'.leaked[x] > 0 ensures EnvironmentId(s'.known, x) {
      var u :| u in s.known && u.id == x && u.kind.Environment?;
      assert u in s'.known;
    }
    CalmOwnInv(s, s');
  }

  lemma {:induction false} CreateOwnInv(s: State, id: string)
    requires Inv(s) && OwnInv(s) && id !in s.sandboxes
    ensures OwnInv(Apply(s, Create(id)))
  {
    var s' := Apply(s, Create(id));
    forall jd, t | jd in s'.sandboxes && t in s'.known && ClaimsIn(s', jd, t) ensures jd in s.sandboxes && ClaimsIn(s, jd, t) {
      assert jd != id;
    }
    forall jd | jd in s'.sandboxes ensures FileOk(s'.sandboxes[jd], DumpOf(s'.disk, jd)) && NamesOk(s'.known, s'.sandboxes[jd], DumpOf(s'.disk, jd)) {
      if jd != id { assert DumpOf(s'.disk, jd) == DumpOf(s.disk, jd); }
    }
  }

  lemma {:induction false} RestartOwnInv(s: State, step: Step)
    requires Inv(s) && OwnInv(s) && step.Restart? && Enabled(s, step)
    ensures OwnInv(Apply(s, step))
  {
    var s' := Apply(s, step);
    forall id, t | id in s'.sandboxes && t in s'.known && ClaimsIn(s', id, t)
      ensures id in s.sandboxes && ClaimsIn(s, id, t) && t in s'.consumed && t !in s'.pool.available
    {
      assert OwnsMeta(s.disk[id], t) && s.disk[id].templateId == Some(t.id);
      assert ClaimsIn(s, id, t);
    }
    forall id | id in s'.sandboxes ensures FileOk(s'.sandboxes[id], DumpOf(s'.disk, id)) && NamesOk(s'.known, s'.sandboxes[id], DumpOf(s'.disk, id)) {
      assert FileOk(s.sandboxes[id], DumpOf(s.disk, id)) && NamesOk(s.known, s.sandboxes[id], DumpOf(s.disk, id));
    }
  }

  lemma {:induction false} StepOwnInv(s: State, step: Step)
    requires Inv(s) && OwnInv(s) && Enabled(s, step)
    ensures OwnInv(Apply(s, step))
  {
    match step
    case On(id, a) => ActOwnInv(s, id, a);
    case Create(id) => CreateOwnInv(s, id);
    case AddTemplate(t) => AddOwnInv(s, t);
    case Restart(_, _, _, _, _) => RestartOwnInv(s, step);
    case _ => PoolOwnInv(s, step);
  }

  lemma {:induction false} RunOwnInv(mode: LeaseMode, steps: seq<Step>)
    requires RunTo(mode, steps).Some?
    ensures Inv(RunTo(mode, steps).value) && OwnInv(RunTo(mode, steps).value)
  {
    RunInv(mode, steps);
    if steps != [] {
      var front := steps[..|steps| - 1];
      RunOwnInv(mode, front);
      StepOwnInv(RunTo(mode, front).value, steps[|steps| - 1]);
    }
  }

  // ---- When a template that backs a sandbox can be evicted ----

  lemma {:induction false} FlightsAreEnvironment(s: State, t: Template)
    requires Inv(s) && OwnInv(s) && t in s.known && t.kind.WarmFork?
    ensures t.id !in s.pool.inFlight
  {
    forall id | id in s.sandboxes ensures !Plays(Flights, s.sandboxes[id], t.id) {
      assert SandboxOk(s.pool.mode, s.known, s.sandboxes[id]);
    }
    CountersSay(s, t.id);
  }

  /** A sandbox that `t` backs holds a count of it, or has it to itself. */
  lemma {:induction false} BackingIsHeld(s: State, id: string, t: Template)
    requires Inv(s) && OwnInv(s) && id in s.sandboxes && t in s.known && Backs(s.sandboxes[id], t)
    ensures || t.id in s.pool.inFlight
            || (t !in s.pool.available && Owns(s.sandboxes[id], t))
            || (t.id in s.pool.inUse && (t.kind.WarmFork? && s.pool.mode.Exclusive? ==> HoldsPin(s.sandboxes[id].meta, t.id)))
  {
    var sb := s.sandboxes[id];
    assert SandboxOk(s.pool.mode, s.known, sb) && FileOk(sb, DumpOf(s.disk, id));
    CountersSay(s, t.id);
    if Owns(sb, t) {
      assert ClaimsIn(s, id, t);
    } else {
      HeldLocally(s.pool.mode, s.known, sb, t);
    }
  }

  lemma {:induction false} HeldLocally(mode: LeaseMode, known: set<Template>, sb: Sandbox, t: Template)
    requires SandboxOk(mode, known, sb) && MetaOk(sb.meta) && Backs(sb, t) && !Owns(sb, t) && !t.kind.Continuation?
    ensures || Plays(Flights, sb, t.id)
            || (Plays(Refs, sb, t.id) && mode.Shared?)
            || (Plays(Pins, sb, t.id) && HoldsPin(sb.meta, t.id))
  {}

  /** After every run, a template that backs a sandbox is chosen by an evictor if and only if it is a
      WarmFork template still in the pool, the pool is now Exclusive, and it is evicted by kind; the
      sandbox was then restored while the pool was Shared. */
  lemma {:induction false} BackingIsEvictable(mode: LeaseMode, steps: seq<Step>, id: string, t: Template, e: Evictor)
    requires RunTo(mode, steps).Some? && id in RunTo(mode, steps).value.sandboxes && t in RunTo(mode, steps).value.known
    requires Backs(RunTo(mode, steps).value.sandboxes[id], t)
    ensures var s := RunTo(mode, steps).value;
            && (Enabled(s, Choose(e, t)) <==>
                  t in s.pool.available && e.EvictByKind? && s.pool.mode.Exclusive? && t.kind.WarmFork?)
            && (Enabled(s, Choose(e, t)) ==> HoldsPin(s.sandboxes[id].meta, t.id))
  {
    var s := RunTo(mode, steps).value;
    RunOwnInv(mode, steps);
    BackingIsHeld(s, id, t);
    if t.kind.WarmFork? { FlightsAreEnvironment(s, t); }
  }

  // ---- Runs in which the lease mode does not change ----

  predicate Steady(mode: LeaseMode, steps: seq<Step>) {
    forall i :: 0 <= i < |steps| && steps[i].Restart? ==> steps[i].mode == mode
  }

  predicate ModeMeta(mode: LeaseMode, m: RestoreMeta) {
    m.kind == Some(WarmFork) ==> m.lease == Some(mode)
  }

  ghost predicate SteadyInv(mode: LeaseMode, s: State) {
    && s.pool.mode == mode
    && (forall id :: id in s.sandboxes ==> ModeMeta(mode, s.sandboxes[id].meta))
    && (forall id :: id in s.disk ==> ModeMeta(mode, s.disk[id]))
  }

  lemma {:induction false} SteadyStep(mode: LeaseMode, s: State, step: Step)
    requires SteadyInv(mode, s) && Enabled(s, step) && (step.Restart? ==> step.mode == mode)
    ensures SteadyInv(mode, Apply(s, step))
  {
    if step.On? { SteadyAct(mode, s, step.id, step.act); }
  }

  lemma {:induction false} SteadyAct(mode: LeaseMode, s: State, id: string, a: Act)
    requires SteadyInv(mode, s) && id in s.sandboxes && Ready(s.sandboxes[id].op, a)
    ensures SteadyInv(mode, ApplyAct(s, id, a))
  {
    var s' := ApplyAct(s, id, a);
    forall jd | jd in s'.disk ensures ModeMeta(mode, s'.disk[jd]) {
      FileAfterIs(s.disk, id, s.sandboxes[id], a, jd);
      assert s'.disk[jd] == DumpOf(s'.disk, jd).value;
      if jd != id { assert DumpOf(s.disk, jd).Some?; }
    }
  }

  lemma {:induction false} SteadyRun(mode: LeaseMode, steps: seq<Step>)
    requires RunTo(mode, steps).Some? && Steady(mode, steps)
    ensures SteadyInv(mode, RunTo(mode, steps).value)
  {
    if steps != [] {
      var front := steps[..|steps| - 1];
      assert forall i :: 0 <= i < |front| ==> front[i] == steps[i];
      SteadyRun(mode, front);
      SteadyStep(mode, RunTo(mode, front).value, steps[|steps| - 1]);
    }
  }

  /** As long as the lease mode stays what it was, no evictor ever chooses a template that backs a
      sandbox, Exclusive leases included. */
  lemma {:induction false} BackingIsNotEvictable(mode: LeaseMode, steps: seq<Step>, id: string, t: Template, e: Evictor)
    requires RunTo(mode, steps).Some? && Steady(mode, steps)
    requires id in RunTo(mode, steps).value.sandboxes && t in RunTo(mode, steps).value.known
    requires Backs(RunTo(mode, steps).value.sandboxes[id], t)
    ensures !Enabled(RunTo(mode, steps).value, Choose(e, t))
  {
    BackingIsEvictable(mode, steps, id, t, e);
    SteadyRun(mode, steps);
    RunOwnInv(mode, steps);
    var s := RunTo(mode, steps).value;
    if Enabled(s, Choose(e, t)) { SharedPinIsShared(mode, s, id, t); }
  }

  lemma {:induction false} SharedPinIsShared(mode: LeaseMode, s: State, id: string, t: Template)
    requires SteadyInv(mode, s) && Inv(s) && OwnInv(s) && id in s.sandboxes && t in s.known && t.kind.WarmFork?
    requires HoldsPin(s.sandboxes[id].meta, t.id) && Backs(s.sandboxes[id], t) && t in s.pool.available
    ensures mode.Shared?
  {
    assert SandboxOk(s.pool.mode, s.known, s.sandboxes[id]);
    if Owns(s.sandboxes[id], t) { assert ClaimsIn(s, id, t); }
    if mode.Exclusive? { NotSharedLocally(s.known, s.sandboxes[id], t); }
  }

  lemma {:induction false} NotSharedLocally(known: set<Template>, sb: Sandbox, t: Template)
    requires SandboxOk(Exclusive, known, sb) && ModeMeta(Exclusive, sb.meta) && t.kind.WarmFork? && Backs(sb, t)
    ensures Owns(sb, t)
  {}

  // ---- Leaked restores ----

  /** How many restores of `t` were counted and never ended since the last restart. */
  function LeaksSince(steps: seq<Step>, t: string): nat {
    if steps == [] then 0
    else
      var before := LeaksSince(steps[..|steps| - 1], t);
      match steps[|steps| - 1]
      case AcquireWrongKind(u) => if u.id == t then before + 1 else before
      case Restart(_, _, _, _, _) => 0
      case _ => before
  }

  lemma {:induction false} LeakedExactly(mode: LeaseMode, steps: seq<Step>, t: string)
    requires RunTo(mode, steps).Some?
    ensures RunTo(mode, steps).value.leaked[t] == LeaksSince(steps, t)
  {
    if steps != [] {
      var front := steps[..|steps| - 1];
      LeakedExactly(mode, front, t);
      LeakStep(RunTo(mode, front).value, steps[|steps| - 1], t);
    }
  }

  lemma {:induction false} LeakStep(s: State, step: Step, t: string)
    requires Enabled(s, step)
    ensures Apply(s, step).leaked[t] == match step
                                        case AcquireWrongKind(u) => s.leaked[t] + (if u.id == t then 1 else 0)
                                        case Restart(_, _, _, _, _) => 0
                                        case _ => s.leaked[t]
  {}

  lemma {:induction false} LeaksStay(steps: seq<Step>, more: seq<Step>, t: string)
    requires forall i :: 0 <= i < |more| ==> !more[i].Restart?
    ensures LeaksSince(steps + more, t) >= LeaksSince(steps, t)
  {
    if more == [] {
      assert steps + more == steps;
    } else {
      var front := more[..|more| - 1];
      assert (steps + more)[..|steps + more| - 1] == steps + front;
      LeaksStay(steps, front, t);
    }
  }

  /** Once a template of the wrong kind has been acquired by id, its in-flight count never comes back
      to zero and no evictor chooses it, whatever happens, until the sandboxer restarts. */
  lemma {:induction false} LeakBlocksEviction(mode: LeaseMode, steps: seq<Step>, more: seq<Step>, t: Template, e: Evictor)
    requires LeaksSince(steps, t.id) > 0 && forall i :: 0 <= i < |more| ==> !more[i].Restart?
    requires RunTo(mode, steps + more).Some?
    ensures var s := RunTo(mode, steps + more).value; CountOf(s.pool.inFlight, t.id) > 0 && !Enabled(s, Choose(e, t))
  {
    LeaksStay(steps, more, t.id);
    LeakedExactly(mode, steps + more, t.id);
    RunInv(mode, steps + more);
  }

  // ---- Lost references ----

  /** How many references to `t` were overwritten by a second restore since the last restart. */
  ghost function LossesSince(mode: LeaseMode, steps: seq<Step>, t: string): nat
    requires RunTo(mode, steps).Some?
  {
    if steps == [] then 0
    else
      var front := steps[..|steps| - 1];
      LossesAt(RunTo(mode, front).value, steps[|steps| - 1], t, LossesSince(mode, front, t))
  }

  /** A restore that writes its metadata over metadata that holds a reference loses that reference. */
  predicate Overwrites(s: State, step: Step, t: string)
    requires Enabled(s, step)
  {
    step.On? && step.act.SetMeta? && HoldsPin(s.sandboxes[step.id].meta, t)
  }

  function LossesAt(s: State, step: Step, t: string, before: nat): nat
    requires Enabled(s, step)
  {
    if step.Restart? then 0 else before + Bit(Overwrites(s, step, t))
  }

  lemma {:induction false} LossStep(s: State, step: Step, t: string)
    requires Enabled(s, step)
    ensures Apply(s, step).lost[t] == LossesAt(s, step, t, s.lost[t])
  {
    if step.On? { ReleaseMatchesRebuild(s.sandboxes[step.id].meta, t); }
  }

  lemma {:induction false} LostExactly(mode: LeaseMode, steps: seq<Step>, t: string)
    requires RunTo(mode, steps).Some?
    ensures RunTo(mode, steps).value.lost[t] == LossesSince(mode, steps, t)
  {
    if steps != [] {
      var front := steps[..|steps| - 1];
      LostExactly(mode, front, t);
      LossStep(RunTo(mode, front).value, steps[|steps| - 1], t);
    }
  }

  /** The lifetime count is exactly the live pins and the shared leases in flight if and only if no
      reference was overwritten since the last restart. */
  lemma {:induction false} CountsWithoutLoss(mode: LeaseMode, steps: seq<Step>, t: string)
    requires RunTo(mode, steps).Some?
    ensures var s := RunTo(mode, steps).value;
            CountOf(s.pool.inUse, t) == |Players(Pins, s.sandboxes, t)| + |Players(Refs, s.sandboxes, t)| <==> LossesSince(mode, steps, t) == 0
  {
    CountsAreExact(mode, steps, t);
    LostExactly(mode, steps, t);
  }

  lemma {:induction false} LossesStay(mode: LeaseMode, steps: seq<Step>, more: seq<Step>, t: string)
    requires RunTo(mode, steps + more).Some? && forall i :: 0 <= i < |more| ==> !more[i].Restart?
    ensures RunTo(mode, steps).Some? && LossesSince(mode, steps + more, t) >= LossesSince(mode, steps, t)
  {
    if more == [] {
      assert steps + more == steps;
    } else {
      var front := more[..|more| - 1];
      assert (steps + more)[..|steps + more| - 1] == steps + front;
      LossesStay(mode, steps, front, t);
    }
  }

  /** Once a reference to a template is lost, no evictor that looks at its holders chooses the template,
      whatever happens, until the sandboxer restarts; all do but eviction by kind from an Exclusive pool. */
  lemma {:induction false} LossBlocksEviction(mode: LeaseMode, steps: seq<Step>, more: seq<Step>, t: Template, e: Evictor)
    requires RunTo(mode, steps).Some? && RunTo(mode, steps + more).Some?
    requires LossesSince(mode, steps, t.id) > 0 && forall i :: 0 <= i < |more| ==> !more[i].Restart?
    ensures var s := RunTo(mode, steps + more).value;
            CountOf(s.pool.inUse, t.id) > 0 &&
            (Enabled(s, Choose(e, t)) ==> e.EvictByKind? && !t.kind.Environment? && s.pool.mode.Exclusive?)
  {
    LossesStay(mode, steps, more, t.id);
    LostExactly(mode, steps + more, t.id);
    CountsAreExact(mode, steps + more, t.id);
  }
}
