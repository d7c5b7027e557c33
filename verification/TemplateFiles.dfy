/** When the files that VMs run from stay, over the runs of `TemplateRefs`: what every step must avoid, and
    that it must avoid all of it.
 */
module TemplateFiles {
  import opened Wrappers
  import opened Templates
  import opened TemplateRefs
  import opened TemplateEviction

  // ---- Steps that put files at risk ----

  /** The metadata of a sandbox restored while the pool was Shared, whose memory is in the files of `t`. */
  predicate SharedOn(m: RestoreMeta, t: Template) {
    NamedBy(m) == Some(t) && t.kind.WarmFork? && m.lease == Some(Shared) && NonCopy(m.memory)
  }

  /** No restore acquires a template already chosen for eviction, and no restart puts a WarmFork template
      into an Exclusive pool while a sandbox recovers that was restored from it under Shared. */
  predicate Clean(s: State, step: Step)
    requires Enabled(s, step)
  {
    match step
    case On(_, Acquire(t)) => s.doomed[t] == 0
    case Restart(recovered, loaded, mode, _, _) =>
      mode.Exclusive? ==> forall id, t :: id in recovered && t in loaded ==> !SharedOn(s.disk[id], t)
    case _ => true
  }

  ghost predicate CleanRun(mode: LeaseMode, steps: seq<Step>) {
    && RunTo(mode, steps).Some?
    && (steps == [] ||
        (CleanRun(mode, steps[..|steps| - 1]) &&
         Clean(RunTo(mode, steps[..|steps| - 1]).value, steps[|steps| - 1])))
  }

  // ---- The invariant ----

  /** The files of `t` back this sandbox, or will when it comes back from its file. */
  predicate BacksOrWill(sb: Sandbox, dump: Option<RestoreMeta>, t: Template) {
    Backs(sb, t) || (dump.Some? && Recorded(dump.value, t))
  }

  predicate BacksIn(s: State, id: string, t: Template)
    requires id in s.sandboxes
  {
    BacksOrWill(s.sandboxes[id], DumpOf(s.disk, id), t)
  }

  /** The reference a file stands for is still counted: it is the sandbox's own, or was lost. */
  predicate PinKept(sb: Sandbox, dump: Option<RestoreMeta>, lost: multiset<string>) {
    dump.Some? && Released(dump.value).Some? ==>
      var t := Released(dump.value).value;
      || lost[t] > 0
      || (HoldsPin(sb.meta, t) && (sb.op.Idle? || sb.op.Leased? || sb.op.Deleting?))
      || (sb.op.Dumped? && sb.meta == dump.value)
  }

  /** The sandbox runs from `t` since the pool was Shared, or will when it comes back from its file. */
  predicate SharedIn(sb: Sandbox, dump: Option<RestoreMeta>, t: Template) {
    || (SharedOn(sb.meta, t) && (sb.op.Idle? || sb.op.Leased? || sb.op.Deleting?))
    || (dump.Some? && SharedOn(dump.value, t))
  }

  ghost predicate PoolApart(s: State) {
    s.removed <= s.known && s.pool.available !! s.removed && forall t :: s.doomed[t] > 0 ==> t in s.known
  }

  /** What backs a sandbox is there, and is not about to go. */
  ghost predicate BackingThere(s: State) {
    forall id, t :: id in s.sandboxes && BacksIn(s, id, t) ==> t in s.known && t !in s.removed && s.doomed[t] == 0
  }

  predicate PinsKept(s: State) {
    forall id :: id in s.sandboxes ==> PinKept(s.sandboxes[id], DumpOf(s.disk, id), s.lost)
  }

  /** In an Exclusive pool, what was shared is not in the pool and nobody has it to itself. */
  ghost predicate ForksApart(s: State) {
    s.pool.mode.Exclusive? ==> forall id, t :: id in s.sandboxes ==> Apart(s, id, t)
  }

  predicate Apart(s: State, id: string, t: Template)
    requires id in s.sandboxes
  {
    SharedIn(s.sandboxes[id], DumpOf(s.disk, id), t) ==> t !in s.pool.available && !ClaimsIn(s, id, t)
  }

  ghost predicate OwnersAlone(s: State) {
    forall id, jd, t :: id in s.sandboxes && jd in s.sandboxes && ClaimsIn(s, id, t) && BacksIn(s, jd, t) ==> id == jd
  }

  ghost predicate FilesInv(s: State) {
    PoolApart(s) && BackingThere(s) && PinsKept(s) && ForksApart(s) && OwnersAlone(s)
  }

  // ---- One act, without the rest of the state ----

  lemma {:induction false} BacksGrows(mode: LeaseMode, known: set<Template>, sb: Sandbox, dump: Option<RestoreMeta>, a: Act, t: Template)
    requires Ready(sb.op, a) && SandboxOk(mode, known, sb)
    requires BacksOrWill(NextSandbox(mode, sb, a), FileAfter(dump, sb, a), t)
    ensures BacksOrWill(sb, dump, t) || (a.Acquire? && a.t == t)
  {}

  lemma {:induction false} PinStaysKept(mode: LeaseMode, known: set<Template>, sb: Sandbox, dump: Option<RestoreMeta>, a: Act, lost: multiset<string>)
    requires Ready(sb.op, a) && SandboxOk(mode, known, sb) && FileOk(sb, dump) && PinKept(sb, dump, lost)
    ensures PinKept(NextSandbox(mode, sb, a), FileAfter(dump, sb, a), lost + LostBy(sb, a))
  {
    var after := FileAfter(dump, sb, a);
    if after.Some? && Released(after.value).Some? {
      var t := Released(after.value).value;
      ReleaseMatchesRebuild(after.value, t);
      ReleaseMatchesRebuild(sb.meta, t);
    }
  }

  lemma {:induction false} SharedShrinks(known: set<Template>, sb: Sandbox, dump: Option<RestoreMeta>, a: Act, t: Template)
    requires Ready(sb.op, a) && SandboxOk(Exclusive, known, sb)
    requires SharedIn(NextSandbox(Exclusive, sb, a), FileAfter(dump, sb, a), t)
    ensures SharedIn(sb, dump, t)
  {}

  /** A file's reference is counted, or its template has an owner. */
  lemma {:induction false} FileHeldLocally(mode: LeaseMode, known: set<Template>, sb: Sandbox, dump: Option<RestoreMeta>, lost: multiset<string>, t: Template)
    requires SandboxOk(mode, known, sb) && PinKept(sb, dump, lost) && dump.Some? && MetaOk(dump.value) && Recorded(dump.value, t) && !t.kind.Continuation?
    ensures || OwnsMeta(dump.value, t)
            || (HoldsPin(dump.value, t.id) && (lost[t.id] > 0 || Plays(Pins, sb, t.id) || Plays(Refs, sb, t.id)))
  {
    ReleaseMatchesRebuild(dump.value, t.id);
  }

  // ---- Who holds what backs a sandbox ----

  lemma {:induction false} FileIsHeld(s: State, id: string, t: Template)
    requires Inv(s) && OwnInv(s) && PinsKept(s) && id in s.sandboxes && t in s.known
    requires id in s.disk && Recorded(s.disk[id], t)
    ensures (ClaimsIn(s, id, t) && t !in s.pool.available) || (t.id in s.pool.inUse && HoldsPin(s.disk[id], t.id))
  {
    assert PinKept(s.sandboxes[id], DumpOf(s.disk, id), s.lost) && FileOk(s.sandboxes[id], DumpOf(s.disk, id));
    FileHeldLocally(s.pool.mode, s.known, s.sandboxes[id], DumpOf(s.disk, id), s.lost, t);
    if OwnsMeta(s.disk[id], t) { assert ClaimsIn(s, id, t); } else { CountersSay(s, t.id); }
  }

  /** Whatever backs a sandbox is in flight, out of the pool with an owner, or counted; and if it is
      counted, is a WarmFork template and the pool is Exclusive, it was shared. */
  lemma {:induction false} Held(s: State, id: string, t: Template)
    requires Inv(s) && OwnInv(s) && PinsKept(s) && id in s.sandboxes && t in s.known && BacksIn(s, id, t)
    ensures || t.id in s.pool.inFlight
            || t !in s.pool.available
            || (t.id in s.pool.inUse
                && (t.kind.WarmFork? && s.pool.mode.Exclusive? ==> SharedIn(s.sandboxes[id], DumpOf(s.disk, id), t)))
  {
    if Backs(s.sandboxes[id], t) {
      LiveHeld(s, id, t);
    } else {
      FileIsHeld(s, id, t);
    }
  }

  lemma {:induction false} LiveHeld(s: State, id: string, t: Template)
    requires Inv(s) && OwnInv(s) && id in s.sandboxes && t in s.known && Backs(s.sandboxes[id], t)
    ensures || t.id in s.pool.inFlight
            || t !in s.pool.available
            || (t.id in s.pool.inUse
                && (t.kind.WarmFork? && s.pool.mode.Exclusive? ==> SharedIn(s.sandboxes[id], DumpOf(s.disk, id), t)))
  {
    BackingIsHeld(s, id, t);
    if !Owns(s.sandboxes[id], t) && s.pool.mode.Exclusive? && t.kind.WarmFork? {
      assert SandboxOk(s.pool.mode, s.known, s.sandboxes[id]) && FileOk(s.sandboxes[id], DumpOf(s.disk, id));
      SharedLocally(s.known, s.sandboxes[id], t);
    }
    if Owns(s.sandboxes[id], t) { assert ClaimsIn(s, id, t); }
  }

  lemma {:induction false} SharedLocally(known: set<Template>, sb: Sandbox, t: Template)
    requires SandboxOk(Exclusive, known, sb) && MetaOk(sb.meta) && t.kind.WarmFork? && Backs(sb, t) && !Owns(sb, t)
    ensures SharedOn(sb.meta, t) && (sb.op.Idle? || sb.op.Leased? || sb.op.Deleting?)
  {}

  // ---- Acts ----

  lemma {:induction false} ActBacks(s: State, id: string, a: Act, jd: string, t: Template)
    requires Inv(s) && id in s.sandboxes && Can(s.pool.available, s.sandboxes[id], a) && jd in s.sandboxes
    requires BacksIn(ApplyAct(s, id, a), jd, t)
    ensures BacksIn(s, jd, t) || (jd == id && a.Acquire? && a.t == t)
  {
    FileAfterIs(s.disk, id, s.sandboxes[id], a, jd);
    if jd == id { BacksGrows(s.pool.mode, s.known, s.sandboxes[id], DumpOf(s.disk, id), a, t); }
  }

  /** Nobody runs from a template that is acquired exclusively. */
  lemma {:induction false} AcquiredIsIdle(s: State, t: Template, jd: string)
    requires Inv(s) && OwnInv(s) && FilesInv(s) && t in s.pool.available && s.pool.mode.Exclusive? && t.kind.WarmFork?
    requires jd in s.sandboxes
    ensures !BacksIn(s, jd, t)
  {
    assert Apart(s, jd, t);
    if BacksIn(s, jd, t) {
      FlightsAreEnvironment(s, t);
      Held(s, jd, t);
    }
  }

  lemma {:induction false} ActOwners(s: State, id: string, a: Act, jd: string, kd: string, t: Template)
    requires Inv(s) && OwnInv(s) && FilesInv(s) && Enabled(s, On(id, a)) && jd in s.sandboxes && kd in s.sandboxes && t in s.known
    requires ClaimsIn(ApplyAct(s, id, a), jd, t) && BacksIn(ApplyAct(s, id, a), kd, t)
    ensures jd == kd
  {
    ClaimAfter(s, id, a, jd, t);
    ActBacks(s, id, a, kd, t);
    if a.Acquire? && a.t == t {
      if KindOfLease(s.pool.mode, t.kind).ExclusiveLease? { AcquiredIsIdle(s, t, kd); }
      AcquiredIsFree(s, jd, t);
    }
  }

  /** What a delete cleans up backs nobody else, and is out of the pool. */
  lemma {:induction false} CleanedIsOwned(s: State, id: string, t: Template)
    requires Inv(s) && OwnInv(s) && id in s.sandboxes && s.sandboxes[id].op.Unlinked?
    requires t in Cleaned(s.consumed, s.sandboxes[id].meta)
    ensures ClaimsIn(s, id, t) && t in s.known && t !in s.pool.available && id !in s.disk
  {
    assert FileOk(s.sandboxes[id], DumpOf(s.disk, id));
    assert NamesOk(s.known, s.sandboxes[id], DumpOf(s.disk, id));
    assert Owns(s.sandboxes[id], t);
  }

  lemma {:induction false} CleanedIsElsewhere(s: State, id: string, jd: string, t: Template)
    requires Inv(s) && OwnInv(s) && FilesInv(s) && id in s.sandboxes && s.sandboxes[id].op.Unlinked?
    requires jd in s.sandboxes && BacksIn(s, jd, t)
    ensures t !in Cleaned(s.consumed, s.sandboxes[id].meta)
  {
    if t in Cleaned(s.consumed, s.sandboxes[id].meta) { CleanedIsOwned(s, id, t); }
  }

  lemma {:induction false} ActRemoves(s: State, id: string, a: Act, jd: string, t: Template)
    requires Inv(s) && OwnInv(s) && FilesInv(s) && Enabled(s, On(id, a)) && Clean(s, On(id, a)) && jd in s.sandboxes
    requires BacksIn(ApplyAct(s, id, a), jd, t)
    ensures t in s.known && t !in ApplyAct(s, id, a).removed && s.doomed[t] == 0
  {
    ActBacks(s, id, a, jd, t);
    if a.Dereference? { CleanedIsElsewhere(s, id, jd, t); }
  }

  lemma {:induction false} ReturnedIsThere(s: State, id: string, a: Act, t: Template)
    requires Inv(s) && FilesInv(s) && Enabled(s, On(id, a)) && t in s.removed
    ensures t !in NextPool(s.pool, s.sandboxes[id], a).available
  {
    assert !BacksIn(s, id, t);
  }

  lemma {:induction false} ActPool(s: State, id: string, a: Act)
    requires Inv(s) && OwnInv(s) && FilesInv(s) && Enabled(s, On(id, a))
    ensures PoolApart(ApplyAct(s, id, a))
  {
    var s' := ApplyAct(s, id, a);
    forall t | t in s'.removed ensures t in s.known && t !in s'.pool.available {
      if t !in s.removed { CleanedIsOwned(s, id, t); } else { ReturnedIsThere(s, id, a, t); }
    }
  }

  lemma {:induction false} ActBackingThere(s: State, id: string, a: Act)
    requires Inv(s) && OwnInv(s) && FilesInv(s) && Enabled(s, On(id, a)) && Clean(s, On(id, a))
    ensures BackingThere(ApplyAct(s, id, a))
  {
    var s' := ApplyAct(s, id, a);
    forall jd, t | jd in s'.sandboxes && BacksIn(s', jd, t)
      ensures t in s'.known && t !in s'.removed && s'.doomed[t] == 0
    {
      ActRemoves(s, id, a, jd, t);
    }
  }

  lemma {:induction false} ActOwnersAlone(s: State, id: string, a: Act)
    requires Inv(s) && OwnInv(s) && FilesInv(s) && Enabled(s, On(id, a)) && Clean(s, On(id, a))
    ensures OwnersAlone(ApplyAct(s, id, a))
  {
    var s' := ApplyAct(s, id, a);
    forall jd, kd, t | jd in s'.sandboxes && kd in s'.sandboxes && ClaimsIn(s', jd, t) && BacksIn(s', kd, t)
      ensures jd == kd
    {
      ActRemoves(s, id, a, kd, t);
      ActOwners(s, id, a, jd, kd, t);
    }
  }

  lemma {:induction false} ActPinsKept(s: State, id: string, a: Act)
    requires Inv(s) && OwnInv(s) && PinsKept(s) && Enabled(s, On(id, a))
    ensures PinsKept(ApplyAct(s, id, a))
  {
    var sb, s' := s.sandboxes[id], ApplyAct(s, id, a);
    assert FileOk(sb, DumpOf(s.disk, id));
    PinStaysKept(s.pool.mode, s.known, sb, DumpOf(s.disk, id), a, s.lost);
    forall jd | jd in s'.sandboxes ensures PinKept(s'.sandboxes[jd], DumpOf(s'.disk, jd), s'.lost) {
      FileAfterIs(s.disk, id, sb, a, jd);
      if jd != id { MoreIsLost(s.sandboxes[jd], DumpOf(s.disk, jd), s.lost, LostBy(sb, a)); }
    }
  }

  lemma {:induction false} MoreIsLost(sb: Sandbox, dump: Option<RestoreMeta>, lost: multiset<string>, more: multiset<string>)
    requires PinKept(sb, dump, lost)
    ensures PinKept(sb, dump, lost + more)
  {}

  lemma {:induction false} ActForks(s: State, id: string, a: Act, jd: string, t: Template)
    requires Inv(s) && OwnInv(s) && FilesInv(s) && Enabled(s, On(id, a)) && jd in s.sandboxes && s.pool.mode.Exclusive?
    ensures Apart(ApplyAct(s, id, a), jd, t)
  {
    if SharedIn(ApplyAct(s, id, a).sandboxes[jd], DumpOf(ApplyAct(s, id, a).disk, jd), t) { ActShared(s, id, a, jd, t); }
  }

  lemma {:induction false} ActShared(s: State, id: string, a: Act, jd: string, t: Template)
    requires Inv(s) && OwnInv(s) && FilesInv(s) && Enabled(s, On(id, a)) && jd in s.sandboxes && s.pool.mode.Exclusive?
    requires SharedIn(ApplyAct(s, id, a).sandboxes[jd], DumpOf(ApplyAct(s, id, a).disk, jd), t)
    ensures t !in ApplyAct(s, id, a).pool.available && !ClaimsIn(ApplyAct(s, id, a), jd, t)
  {
    FileAfterIs(s.disk, id, s.sandboxes[id], a, jd);
    if jd == id { SharedShrinks(s.known, s.sandboxes[id], DumpOf(s.disk, id), a, t); }
    SharedBacks(s.sandboxes[jd], DumpOf(s.disk, jd), t);
    assert BacksIn(s, jd, t) && Apart(s, jd, t);
    SharedStaysOut(s, id, a, jd, t);
    if ClaimsIn(ApplyAct(s, id, a), jd, t) { ClaimAfter(s, id, a, jd, t); }
  }

  lemma {:induction false} SharedBacks(sb: Sandbox, dump: Option<RestoreMeta>, t: Template)
    requires SharedIn(sb, dump, t)
    ensures BacksOrWill(sb, dump, t)
  {}

  /** Only an owner brings a template back into the pool. */
  lemma {:induction false} SharedStaysOut(s: State, id: string, a: Act, jd: string, t: Template)
    requires Inv(s) && FilesInv(s) && Enabled(s, On(id, a)) && jd in s.sandboxes && s.pool.mode.Exclusive?
    requires SharedIn(s.sandboxes[jd], DumpOf(s.disk, jd), t) && BacksIn(s, jd, t)
    ensures t !in NextPool(s.pool, s.sandboxes[id], a).available
  {
    assert Apart(s, jd, t);
    assert !ClaimsIn(s, id, t) by { assert ClaimsIn(s, id, t) ==> id == jd; }
    ReturnedIsOwned(s.pool, s.sandboxes[id], a, t);
  }

  lemma {:induction false} ReturnedIsOwned(p: Pool, sb: Sandbox, a: Act, t: Template)
    requires Ready(sb.op, a) && t !in p.available
    ensures t in NextPool(p, sb, a).available ==> Owns(sb, t)
  {}

  lemma {:induction false} ActForksApart(s: State, id: string, a: Act)
    requires Inv(s) && OwnInv(s) && FilesInv(s) && Enabled(s, On(id, a))
    ensures ForksApart(ApplyAct(s, id, a))
  {
    var s' := ApplyAct(s, id, a);
    if s.pool.mode.Exclusive? {
      forall jd, t | jd in s'.sandboxes ensures Apart(s', jd, t) { ActForks(s, id, a, jd, t); }
    }
  }

  lemma {:induction false} ActFiles(s: State, id: string, a: Act)
    requires Inv(s) && OwnInv(s) && FilesInv(s) && Enabled(s, On(id, a)) && Clean(s, On(id, a))
    ensures FilesInv(Apply(s, On(id, a)))
  {
    ActPool(s, id, a);
    ActBackingThere(s, id, a);
    ActOwnersAlone(s, id, a);
    ActPinsKept(s, id, a);
    ActForksApart(s, id, a);
  }

  // ---- The other steps ----

  /** A step that leaves the remaining sandboxes and their files alone, removes nothing, dooms nothing
      and puts nothing old into the pool. */
  lemma {:induction false} CalmFiles(s: State, s': State)
    requires FilesInv(s) && s'.sandboxes.Keys <= s.sandboxes.Keys && s'.pool.mode == s.pool.mode && s'.lost == s.lost
    requires forall id :: id in s'.sandboxes ==> s'.sandboxes[id] == s.sandboxes[id] && DumpOf(s'.disk, id) == DumpOf(s.disk, id)
    requires s.known <= s'.known && s'.removed == s.removed && forall t :: s'.doomed[t] <= s.doomed[t]
    requires s'.pool.available <= s.pool.available + (s'.known - s.known)
    ensures FilesInv(s')
  {
    assert PoolApart(s') && PinsKept(s');
    CalmBacking(s, s');
    CalmForks(s, s');
  }

  lemma {:induction false} CalmBacking(s: State, s': State)
    requires BackingThere(s) && OwnersAlone(s) && s'.sandboxes.Keys <= s.sandboxes.Keys
    requires forall id :: id in s'.sandboxes ==> s'.sandboxes[id] == s.sandboxes[id] && DumpOf(s'.disk, id) == DumpOf(s.disk, id)
    requires s.known <= s'.known && s'.removed == s.removed && forall t :: s'.doomed[t] <= s.doomed[t]
    ensures BackingThere(s') && OwnersAlone(s')
  {
    forall id, t | id in s'.sandboxes && BacksIn(s', id, t) ensures BacksIn(s, id, t) {}
    forall id, t | id in s'.sandboxes && ClaimsIn(s', id, t) ensures ClaimsIn(s, id, t) {}
  }

  lemma {:induction false} CalmForks(s: State, s': State)
    requires BackingThere(s) && ForksApart(s) && s'.sandboxes.Keys <= s.sandboxes.Keys && s'.pool.mode == s.pool.mode
    requires forall id :: id in s'.sandboxes ==> s'.sandboxes[id] == s.sandboxes[id] && DumpOf(s'.disk, id) == DumpOf(s.disk, id)
    requires s'.pool.available <= s.pool.available + (s'.known - s.known)
    ensures ForksApart(s')
  {
    if s.pool.mode.Exclusive? {
      forall id, t | id in s'.sandboxes ensures Apart(s', id, t) {
        if SharedIn(s.sandboxes[id], DumpOf(s.disk, id), t) {
          SharedBacks(s.sandboxes[id], DumpOf(s.disk, id), t);
          assert BacksIn(s, id, t) && Apart(s, id, t);
        }
      }
    }
  }

  lemma {:induction false} PoolFiles(s: State, step: Step)
    requires Inv(s) && OwnInv(s) && FilesInv(s) && Enabled(s, step)
    requires step.AddTemplate? || step.AcquireWrongKind? || step.Spare? || step.Forget?
    ensures FilesInv(Apply(s, step))
  {
    if step.Forget? { ForgetFiles(s, step.id); } else { QuietFiles(s, step); }
  }

  lemma {:induction false} ForgetFiles(s: State, id: string)
    requires FilesInv(s) && Enabled(s, Forget(id))
    ensures FilesInv(Apply(s, Forget(id)))
  {
    CalmFiles(s, Apply(s, Forget(id)));
  }

  lemma {:induction false} QuietFiles(s: State, step: Step)
    requires FilesInv(s) && Enabled(s, step) && (step.AddTemplate? || step.AcquireWrongKind? || step.Spare?)
    ensures FilesInv(Apply(s, step))
  {
    if step.AddTemplate? { assert step.t !in s.known; }
    CalmFiles(s, Apply(s, step));
  }

  lemma {:induction false} CreateFiles(s: State, id: string)
    requires OwnInv(s) && FilesInv(s) && id !in s.sandboxes
    ensures FilesInv(Apply(s, Create(id)))
  {
    var s' := Apply(s, Create(id));
    forall jd | jd in s'.sandboxes && jd != id
      ensures jd in s.sandboxes && s'.sandboxes[jd] == s.sandboxes[jd] && DumpOf(s'.disk, jd) == DumpOf(s.disk, jd) {}
    assert DumpOf(s'.disk, id) == Some(DefaultMeta);
    CreateBacking(s, id);
    CreateForks(s, id);
  }

  lemma {:induction false} CreateBacking(s: State, id: string)
    requires BackingThere(s) && OwnersAlone(s) && id !in s.sandboxes
    ensures BackingThere(Apply(s, Create(id))) && OwnersAlone(Apply(s, Create(id)))
  {
    var s' := Apply(s, Create(id));
    forall jd, t | jd in s'.sandboxes && BacksIn(s', jd, t) ensures jd in s.sandboxes && BacksIn(s, jd, t) { assert jd != id; }
    forall jd, t | jd in s'.sandboxes && ClaimsIn(s', jd, t) ensures jd in s.sandboxes && ClaimsIn(s, jd, t) { assert jd != id; }
  }

  lemma {:induction false} CreateForks(s: State, id: string)
    requires ForksApart(s) && id !in s.sandboxes
    ensures ForksApart(Apply(s, Create(id)))
  {
    var s' := Apply(s, Create(id));
    if s.pool.mode.Exclusive? {
      forall jd, t | jd in s'.sandboxes ensures Apart(s', jd, t) {
        if jd != id { assert Apart(s, jd, t); }
      }
    }
  }

  lemma {:induction false} ChosenIsIdle(s: State, e: Evictor, t: Template, id: string)
    requires Inv(s) && OwnInv(s) && FilesInv(s) && Enabled(s, Choose(e, t)) && id in s.sandboxes
    ensures !BacksIn(s, id, t)
  {
    assert s.pool.mode.Exclusive? ==> Apart(s, id, t);
    if BacksIn(s, id, t) { Held(s, id, t); }
  }

  lemma {:induction false} ChooseFiles(s: State, e: Evictor, t: Template)
    requires Inv(s) && OwnInv(s) && FilesInv(s) && Enabled(s, Choose(e, t))
    ensures FilesInv(Apply(s, Choose(e, t)))
  {
    var s' := Apply(s, Choose(e, t));
    forall id, u | id in s'.sandboxes && BacksIn(s', id, u) ensures u in s'.known && u !in s'.removed && s'.doomed[u] == 0 {
      assert BacksIn(s, id, u);
      ChosenIsIdle(s, e, t, id);
    }
    SameSandboxes(s, s');
  }

  lemma {:induction false} EvictFiles(s: State, t: Template)
    requires Inv(s) && FilesInv(s) && Enabled(s, Evict(t))
    ensures FilesInv(Apply(s, Evict(t)))
  {
    var s' := Apply(s, Evict(t));
    forall id, u | id in s'.sandboxes && BacksIn(s', id, u) ensures u in s'.known && u !in s'.removed && s'.doomed[u] == 0 {
      assert BacksIn(s, id, u);
    }
    SameSandboxes(s, s');
  }

  lemma {:induction false} SameSandboxes(s: State, s': State)
    requires FilesInv(s) && s'.sandboxes == s.sandboxes && s'.disk == s.disk && s'.lost == s.lost
    requires s'.pool.mode == s.pool.mode && s'.pool.available <= s.pool.available
    ensures PinsKept(s') && ForksApart(s') && OwnersAlone(s')
  {
    forall id, t | id in s'.sandboxes && BacksIn(s', id, t) ensures BacksIn(s, id, t) {}
    forall id, t | id in s'.sandboxes ensures ClaimsIn(s', id, t) <==> ClaimsIn(s, id, t) {}
    if s.pool.mode.Exclusive? {
      forall id, t | id in s'.sandboxes ensures Apart(s', id, t) { assert Apart(s, id, t); }
    }
  }

  // ---- Restarts ----

  /** A sandbox that comes back from its file runs from what the file says. */
  lemma {:induction false} RestartSandbox(s: State, step: Step, id: string)
    requires OwnInv(s) && Enabled(s, step) && step.Restart? && id in Apply(s, step).sandboxes
    ensures id in step.recovered && id in s.disk && id in s.sandboxes
    ensures Apply(s, step).sandboxes[id] == Sandbox(s.disk[id], Idle) && DumpOf(Apply(s, step).disk, id) == Some(s.disk[id])
    ensures forall t :: t in step.swept ==> s.disk[id].templateId != Some(t.id)
  {}

  lemma {:induction false} RestartBacks(s: State, step: Step, id: string, t: Template)
    requires OwnInv(s) && Enabled(s, step) && step.Restart? && id in Apply(s, step).sandboxes
    ensures id in s.sandboxes
    ensures BacksIn(Apply(s, step), id, t) ==> BacksIn(s, id, t) && t !in step.swept
    ensures ClaimsIn(Apply(s, step), id, t) ==> ClaimsIn(s, id, t)
  {
    RestartSandbox(s, step, id);
  }

  lemma {:induction false} RestartBackingThere(s: State, step: Step)
    requires OwnInv(s) && FilesInv(s) && Enabled(s, step) && step.Restart?
    ensures BackingThere(Apply(s, step))
  {
    var s' := Apply(s, step);
    assert s'.doomed == multiset{} && s'.known == s.known && s'.removed == s.removed + step.swept;
    forall id, t | id in s'.sandboxes && BacksIn(s', id, t) ensures t in s'.known && t !in s'.removed {
      RestartBacks(s, step, id, t);
    }
  }

  lemma {:induction false} RestartOwnersAlone(s: State, step: Step)
    requires OwnInv(s) && FilesInv(s) && Enabled(s, step) && step.Restart?
    ensures OwnersAlone(Apply(s, step))
  {
    var s' := Apply(s, step);
    forall id, jd, t | id in s'.sandboxes && jd in s'.sandboxes && ClaimsIn(s', id, t) && BacksIn(s', jd, t)
      ensures id == jd
    {
      RestartBacks(s, step, id, t);
      RestartBacks(s, step, jd, t);
    }
  }

  lemma {:induction false} RestartPins(s: State, step: Step)
    requires OwnInv(s) && Enabled(s, step) && step.Restart?
    ensures PinsKept(Apply(s, step))
  {
    var s' := Apply(s, step);
    forall id | id in s'.sandboxes ensures PinKept(s'.sandboxes[id], DumpOf(s'.disk, id), s'.lost) {
      RestartSandbox(s, step, id);
      if Released(s.disk[id]).Some? { ReleaseMatchesRebuild(s.disk[id], Released(s.disk[id]).value); }
    }
  }

  lemma {:induction false} RestartForks(s: State, step: Step)
    requires OwnInv(s) && Enabled(s, step) && Clean(s, step) && step.Restart?
    ensures ForksApart(Apply(s, step))
  {
    var s' := Apply(s, step);
    if step.mode.Exclusive? {
      forall id, t | id in s'.sandboxes ensures Apart(s', id, t) { RestartSandbox(s, step, id); }
    }
  }

  lemma {:induction false} RestartFiles(s: State, step: Step)
    requires OwnInv(s) && FilesInv(s) && Enabled(s, step) && Clean(s, step) && step.Restart?
    ensures FilesInv(Apply(s, step))
  {
    RestartBackingThere(s, step);
    RestartOwnersAlone(s, step);
    RestartPins(s, step);
    RestartForks(s, step);
    assert PoolApart(Apply(s, step));
  }

  // ---- Runs ----

  lemma {:induction false} StepFiles(s: State, step: Step)
    requires Inv(s) && OwnInv(s) && FilesInv(s) && Enabled(s, step) && Clean(s, step)
    ensures FilesInv(Apply(s, step))
  {
    match step
    case On(id, a) => ActFiles(s, id, a);
    case Create(id) => CreateFiles(s, id);
    case Choose(e, t) => ChooseFiles(s, e, t);
    case Evict(t) => EvictFiles(s, t);
    case Restart(_, _, _, _, _) => RestartFiles(s, step);
    case _ => PoolFiles(s, step);
  }

  lemma {:induction false} CleanRunFiles(mode: LeaseMode, steps: seq<Step>)
    requires CleanRun(mode, steps)
    ensures FilesInv(RunTo(mode, steps).value)
  {
    if steps != [] {
      var front := steps[..|steps| - 1];
      CleanRunFiles(mode, front);
      RunOwnInv(mode, front);
      StepFiles(RunTo(mode, front).value, steps[|steps| - 1]);
    }
  }

  /** In every clean run the files that back a sandbox, shared or exclusive, restored once or often, are
      there. */
  lemma {:induction false} BackingFilesStay(mode: LeaseMode, steps: seq<Step>, s: State, id: string, t: Template)
    requires CleanRun(mode, steps) && RunTo(mode, steps) == Some(s) && id in s.sandboxes && Backs(s.sandboxes[id], t)
    ensures t !in s.removed
  {
    assert FilesInv(s) by { CleanRunFiles(mode, steps); }
    FilesAreThere(s, id, t);
  }

  lemma {:induction false} FilesAreThere(s: State, id: string, t: Template)
    requires FilesInv(s) && id in s.sandboxes && Backs(s.sandboxes[id], t)
    ensures t !in s.removed
  {
    assert BacksIn(s, id, t);
  }

  // ---- All VMs ----

  /** The step leaves a VM running that no sandbox records: a rollback cannot stop it, a sandbox with a
      running VM is restored again, or the VM survives a restart of the sandboxer. */
  predicate LeavesVm(s: State, step: Step)
    requires Enabled(s, step)
  {
    match step
    case On(id, SetMeta(_, _, _, vmLeft)) => vmLeft && LeftBehind(id, s.sandboxes[id].meta) != {}
    case On(id, RestoreFails(vmLeft)) => vmLeft && LeftBehind(id, s.sandboxes[id].meta) != {}
    case On(id, PostRestoreFails(_, vmLeft)) => vmLeft && LeftBehind(id, s.sandboxes[id].meta) != {}
    case Restart(_, _, _, _, left) => left != {}
    case _ => false
  }

  predicate Safe(s: State, step: Step)
    requires Enabled(s, step)
  {
    Clean(s, step) && !LeavesVm(s, step)
  }

  ghost predicate SafeRun(mode: LeaseMode, steps: seq<Step>) {
    && RunTo(mode, steps).Some?
    && (steps == [] ||
        (SafeRun(mode, steps[..|steps| - 1]) &&
         Safe(RunTo(mode, steps[..|steps| - 1]).value, steps[|steps| - 1])))
  }

  /** A VM runs from the files of `t`, or is about to, recorded or not. */
  predicate RunsFrom(s: State, id: string, t: Template) {
    (id in s.sandboxes && Backs(s.sandboxes[id], t)) || (id, t) in s.strays
  }

  ghost predicate SafeInv(s: State) {
    Inv(s) && OwnInv(s) && FilesInv(s) && s.strays == {}
  }

  lemma {:induction false} NoStray(s: State, step: Step)
    requires Enabled(s, step) && !LeavesVm(s, step) && s.strays == {}
    ensures Apply(s, step).strays == {}
  {}

  lemma {:induction false} StepSafe(s: State, step: Step)
    requires SafeInv(s) && Enabled(s, step) && Safe(s, step)
    ensures SafeInv(Apply(s, step))
  {
    StepInv(s, step);
    StepOwnInv(s, step);
    StepFiles(s, step);
    NoStray(s, step);
  }

  lemma {:induction false} SafeRunInv(mode: LeaseMode, steps: seq<Step>)
    requires SafeRun(mode, steps)
    ensures SafeInv(RunTo(mode, steps).value)
  {
    if steps == [] {
      RunOwnInv(mode, steps);
      assert CleanRun(mode, steps);
      CleanRunFiles(mode, steps);
    } else {
      SafeRunInv(mode, steps[..|steps| - 1]);
      StepSafe(RunTo(mode, steps[..|steps| - 1]).value, steps[|steps| - 1]);
    }
  }

  /** In every safe run the files of every VM, recorded or not, are there. */
  lemma {:induction false} VmFilesStay(mode: LeaseMode, steps: seq<Step>, id: string, t: Template)
    requires SafeRun(mode, steps) && RunsFrom(RunTo(mode, steps).value, id, t)
    ensures t !in RunTo(mode, steps).value.removed
  {
    SafeRunInv(mode, steps);
    FilesAreThere(RunTo(mode, steps).value, id, t);
  }

  // ---- And only then ----

  /** The state after more safe steps, if all of them are enabled and safe. */
  ghost function Onward(s: State, more: seq<Step>): Option<State>
    decreases |more|
  {
    if more == [] then Some(s)
    else if Enabled(s, more[0]) && Safe(s, more[0]) then Onward(Apply(s, more[0]), more[1..])
    else None
  }

  lemma {:induction false} OnwardInv(s: State, more: seq<Step>)
    requires SafeInv(s) && Onward(s, more).Some?
    ensures SafeInv(Onward(s, more).value)
    decreases |more|
  {
    if more != [] {
      StepSafe(s, more[0]);
      OnwardInv(Apply(s, more[0]), more[1..]);
    }
  }

  /** Some VM has lost its files. */
  ghost predicate Loss(s: State) {
    exists id, t :: RunsFrom(s, id, t) && t in s.removed
  }

  ghost predicate CanLose(s: State) {
    exists more :: Onward(s, more).Some? && Loss(Onward(s, more).value)
  }

  lemma {:induction false} OnwardOn(s: State, a: Step)
    requires Enabled(s, a) && Safe(s, a) && CanLose(Apply(s, a))
    ensures CanLose(s)
  {
    var more :| Onward(Apply(s, a), more).Some? && Loss(Onward(Apply(s, a), more).value);
    assert ([a] + more)[1..] == more && Onward(s, [a] + more) == Onward(Apply(s, a), more);
  }

  lemma {:induction false} LostNow(s: State, id: string, t: Template)
    requires RunsFrom(s, id, t) && t in s.removed
    ensures CanLose(s)
  {
    assert Onward(s, []) == Some(s) && Loss(s);
  }

  lemma {:induction false} DoomedIsLost(s: State, id: string, t: Template)
    requires RunsFrom(s, id, t) && s.doomed[t] > 0
    ensures CanLose(s)
  {
    LostNow(Apply(s, Evict(t)), id, t);
    OnwardOn(s, Evict(t));
  }

  lemma {:induction false} ChosenIsLost(s: State, e: Evictor, id: string, t: Template)
    requires RunsFrom(s, id, t) && Enabled(s, Choose(e, t))
    ensures CanLose(s)
  {
    DoomedIsLost(Apply(s, Choose(e, t)), id, t);
    OnwardOn(s, Choose(e, t));
  }

  /** Nothing protects a VM that nobody records: after a restart its files can go. */
  lemma {:induction false} StrayIsLost(s: State, id: string, t: Template)
    requires (id, t) in s.strays && t in s.known
    ensures CanLose(s)
  {
    if t in s.removed {
      LostNow(s, id, t);
    } else if t in s.consumed {
      var sweep := Restart({}, {}, Shared, {t}, {});
      LostNow(Apply(s, sweep), id, t);
      OnwardOn(s, sweep);
    } else {
      var back := Restart({}, {t}, Shared, {}, {});
      assert Apply(s, back).pool.inUse == map[];
      ChosenIsLost(Apply(s, back), RemoveById, id, t);
      OnwardOn(s, back);
    }
  }

  lemma {:induction false} AcquiredIsLost(s: State, id: string, t: Template)
    requires Enabled(s, On(id, Acquire(t))) && s.doomed[t] > 0
    ensures CanLose(Apply(s, On(id, Acquire(t))))
  {
    DoomedIsLost(Apply(s, On(id, Acquire(t))), id, t);
  }

  lemma {:induction false} SharedIsLost(s: State, step: Step, id: string, t: Template)
    requires Enabled(s, step) && step.Restart? && step.mode.Exclusive? && id in step.recovered && t in step.loaded
    requires SharedOn(s.disk[id], t)
    ensures CanLose(Apply(s, step))
  {
    ChosenIsLost(Apply(s, step), EvictByKind, id, t);
  }

  lemma {:induction false} LeftIsLost(s: State, step: Step)
    requires Inv(s) && OwnInv(s) && Enabled(s, step) && LeavesVm(s, step)
    ensures CanLose(Apply(s, step))
  {
    if step.Restart? {
      var x :| x in step.left;
      StrayIsLost(Apply(s, step), x.0, x.1);
    } else {
      var id := step.id;
      assert NamesOk(s.known, s.sandboxes[id], DumpOf(s.disk, id));
      StrayIsLost(Apply(s, step), id, NamedBy(s.sandboxes[id].meta).value);
    }
  }

  /** A step after a safe run is safe if and only if no further safe steps can make a VM lose its files. */
  lemma {:induction false} SafeExactly(mode: LeaseMode, steps: seq<Step>, step: Step)
    requires SafeRun(mode, steps) && Enabled(RunTo(mode, steps).value, step)
    ensures Safe(RunTo(mode, steps).value, step) <==> !CanLose(Apply(RunTo(mode, steps).value, step))
  {
    var s := RunTo(mode, steps).value;
    SafeRunInv(mode, steps);
    if Safe(s, step) {
      StepSafe(s, step);
      SafeKeeps(Apply(s, step));
    } else {
      UnsafeCanLose(s, step);
    }
  }

  lemma {:induction false} SafeKeeps(s: State)
    requires SafeInv(s)
    ensures !CanLose(s)
  {
    forall more | Onward(s, more).Some? ensures !Loss(Onward(s, more).value) {
      OnwardInv(s, more);
      NoLoss(Onward(s, more).value);
    }
  }

  lemma {:induction false} NoLoss(s: State)
    requires SafeInv(s)
    ensures !Loss(s)
  {
    forall id, t | RunsFrom(s, id, t) ensures t !in s.removed { FilesAreThere(s, id, t); }
  }

  lemma {:induction false} UnsafeCanLose(s: State, step: Step)
    requires Inv(s) && OwnInv(s) && Enabled(s, step) && !Safe(s, step)
    ensures CanLose(Apply(s, step))
  {
    if LeavesVm(s, step) {
      LeftIsLost(s, step);
    } else if step.On? {
      AcquiredIsLost(s, step.id, step.act.t);
    } else {
      var id, t :| id in step.recovered && t in step.loaded && SharedOn(s.disk[id], t);
      SharedIsLost(s, step, id, t);
    }
  }
}
