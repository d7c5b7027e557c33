/** Runs of `TemplateRefs` in which the files of a running VM are lost, and one in which a template can
    no longer be evicted.
 */
module TemplateFailures {
  import opened Wrappers
  import opened Templates
  import opened TemplateRefs
  import opened TemplateEviction

  ghost predicate Reachable(mode: LeaseMode, s: State) {
    exists steps :: RunTo(mode, steps) == Some(s)
  }

  lemma {:induction false} Booted(mode: LeaseMode)
    ensures Reachable(mode, Boot(mode))
  {
    assert RunTo(mode, []) == Some(Boot(mode));
  }

  lemma {:induction false} Then(mode: LeaseMode, s: State, step: Step) returns (s': State)
    requires Reachable(mode, s) && Enabled(s, step)
    ensures s' == Apply(s, step) && Reachable(mode, s')
  {
    var steps :| RunTo(mode, steps) == Some(s);
    RunExtends(mode, steps, s, step);
    s' := Apply(s, step);
  }

  lemma {:induction false} RunExtends(mode: LeaseMode, steps: seq<Step>, s: State, step: Step)
    requires RunTo(mode, steps) == Some(s) && Enabled(s, step)
    ensures RunTo(mode, steps + [step]) == Some(Apply(s, step))
  {
    var more := steps + [step];
    assert more[..|more| - 1] == steps && more[|more| - 1] == step;
  }

  const Fork := Template("t", WarmFork)
  const Bare := Template("t", Environment)

  lemma {:induction false} OneTemplate(mode: LeaseMode, t: Template) returns (s: State)
    requires !t.kind.Continuation?
    ensures Reachable(mode, s) && s == Boot(mode).(pool := Pool(mode, {t}, map[], map[]), known := {t})
  {
    Booted(mode);
    s := Then(mode, Boot(mode), AddTemplate(t));
  }

  function LeaseIn(mode: LeaseMode, t: Template): Lease { Lease(t, KindOfLease(mode, t.kind)) }

  function MetaIn(mode: LeaseMode, t: Template): RestoreMeta { MetaFor(mode, t, FileBackend, false, []) }

  /** A new sandbox acquires `t`. */
  lemma {:induction false} AcquireRuns(mode: LeaseMode, s: State, id: string, t: Template) returns (s': State)
    requires Reachable(mode, s) && id !in s.sandboxes && t in s.pool.available
    ensures Reachable(mode, s')
    ensures s' == s.(sandboxes := s.sandboxes[id := Sandbox(DefaultMeta, Leased(LeaseIn(s.pool.mode, t)))],
                     disk := s.disk[id := DefaultMeta], pool := Acquired(s.pool, LeaseOn(s.pool, t)),
                     consumed := if LeaseIn(s.pool.mode, t).kind.ExclusiveLease? then s.consumed + {t} else s.consumed)
  {
    var s1 := Then(mode, s, Create(id));
    s' := Then(mode, s1, On(id, Acquire(t)));
    assert s'.lost == s.lost;
    assert s'.sandboxes == s.sandboxes[id := Sandbox(DefaultMeta, Leased(LeaseIn(s.pool.mode, t)))];
  }

  /** It records the template and gets its VM. */
  lemma {:induction false} StartRuns(mode: LeaseMode, s: State, id: string, t: Template) returns (s': State)
    requires Reachable(mode, s) && id in s.sandboxes && s.sandboxes[id] == Sandbox(DefaultMeta, Leased(LeaseIn(s.pool.mode, t)))
    ensures Reachable(mode, s')
    ensures s' == s.(sandboxes := s.sandboxes[id := Sandbox(MetaIn(s.pool.mode, t), Restored(LeaseIn(s.pool.mode, t)))], pool := s'.pool)
    ensures s'.pool.available == s.pool.available && s'.pool.mode == s.pool.mode
  {
    var s1 := RecordRuns(mode, s, id, t);
    s' := Then(mode, s1, On(id, RestoreWorks));
    assert s'.lost == s.lost;
    assert s'.sandboxes == s.sandboxes[id := Sandbox(MetaIn(s.pool.mode, t), Restored(LeaseIn(s.pool.mode, t)))];
  }

  lemma {:induction false} RecordRuns(mode: LeaseMode, s: State, id: string, t: Template) returns (s': State)
    requires Reachable(mode, s) && id in s.sandboxes && s.sandboxes[id] == Sandbox(DefaultMeta, Leased(LeaseIn(s.pool.mode, t)))
    ensures Reachable(mode, s')
    ensures s' == s.(sandboxes := s.sandboxes[id := Sandbox(MetaIn(s.pool.mode, t), Restoring(LeaseIn(s.pool.mode, t)))])
  {
    s' := Then(mode, s, On(id, SetMeta(FileBackend, false, [], false)));
    assert s'.lost == s.lost;
  }

  /** The restore is dumped and its lease completed. */
  lemma {:induction false} FinishRuns(mode: LeaseMode, s: State, id: string) returns (s': State)
    requires Reachable(mode, s) && id in s.sandboxes && s.sandboxes[id].op.Restored?
    ensures Reachable(mode, s')
    ensures s' == s.(sandboxes := s.sandboxes[id := Sandbox(s.sandboxes[id].meta, Idle)],
                     disk := s.disk[id := s.sandboxes[id].meta], pool := s'.pool)
    ensures s'.pool.available == s.pool.available && s'.pool.mode == s.pool.mode
  {
    var s1 := Then(mode, s, On(id, Dump(false)));
    assert s1.lost == s.lost;
    s' := Then(mode, s1, On(id, Complete));
    assert s'.lost == s.lost;
    assert s'.sandboxes == s.sandboxes[id := Sandbox(s.sandboxes[id].meta, Idle)];
  }

  lemma {:induction false} DeleteRuns(mode: LeaseMode, s: State, id: string) returns (s': State)
    requires Reachable(mode, s) && id in s.sandboxes && s.sandboxes[id].op.Idle?
    ensures Reachable(mode, s') && s'.doomed == s.doomed
    ensures s'.sandboxes == s.sandboxes[id := Sandbox(s.sandboxes[id].meta, Dereferenced)]
    ensures s'.removed == s.removed + Cleaned(s.consumed, s.sandboxes[id].meta)
  {
    var s1 := Then(mode, s, On(id, DeleteStarts({})));
    var s2 := Then(mode, s1, On(id, RemoveDir));
    s' := Then(mode, s2, On(id, Dereference(true)));
    assert s'.sandboxes == s.sandboxes[id := Sandbox(s.sandboxes[id].meta, Dereferenced)];
  }

  /** Choose, acquire, evict: the files of a template being restored are gone. */
  lemma {:induction false} WindowIsReachable() returns (s: State)
    ensures Reachable(Shared, s)
    ensures "a" in s.sandboxes && Backs(s.sandboxes["a"], Fork) && Fork in s.removed
  {
    s := OneTemplate(Shared, Fork);
    s := Then(Shared, s, Choose(GcIfNeeded, Fork));
    s := AcquireRuns(Shared, s, "a", Fork);
    s := Then(Shared, s, Evict(Fork));
  }

  /** A sandbox restored while the pool was Shared. */
  lemma {:induction false} SharedSandbox() returns (s: State)
    ensures Reachable(Shared, s)
    ensures s.sandboxes == map["a" := Sandbox(MetaIn(Shared, Fork), Idle)] && s.disk == map["a" := MetaIn(Shared, Fork)]
    ensures s.known == {Fork} && s.consumed == {} && s.removed == {} && s.lost == multiset{} && s.pool.available == {Fork} && s.pool.mode == Shared
  {
    s := OneTemplate(Shared, Fork);
    s := AcquireRuns(Shared, s, "a", Fork);
    s := StartRuns(Shared, s, "a", Fork);
    s := FinishRuns(Shared, s, "a");
  }

  /** A restart makes the pool Exclusive. */
  lemma {:induction false} BackExclusive() returns (s: State)
    ensures Reachable(Shared, s)
    ensures s.sandboxes == map["a" := Sandbox(MetaIn(Shared, Fork), Idle)]
    ensures s.pool == Pool(Exclusive, {Fork}, s.pool.inUse, map[]) && CountOf(s.pool.inUse, "t") == 1
    ensures s.consumed == {} && s.removed == {} && s.doomed == multiset{}
  {
    s := SharedSandbox();
    s := Then(Shared, s, Restart({"a"}, {Fork}, Exclusive, {}, {}));
    assert s.sandboxes == map["a" := Sandbox(MetaIn(Shared, Fork), Idle)];
    OneHolder(s);
  }

  lemma {:induction false} OneHolder(s: State)
    requires Reachable(Shared, s) && s.sandboxes == map["a" := Sandbox(MetaIn(Shared, Fork), Idle)] && s.lost == multiset{}
    ensures CountOf(s.pool.inUse, "t") == 1
  {
    var steps :| RunTo(Shared, steps) == Some(s);
    CountsAreExact(Shared, steps, "t");
    OnePlayer(Pins, Sandbox(MetaIn(Shared, Fork), Idle));
    OnePlayer(Refs, Sandbox(MetaIn(Shared, Fork), Idle));
  }

  lemma {:induction false} OnePlayer(role: Role, sb: Sandbox)
    ensures |Players(role, map["a" := sb], "t")| == Bit(Plays(role, sb, "t"))
  {
    assert Players(role, map["a" := sb], "t") == if Plays(role, sb, "t") then {"a"} else {};
  }

  /** Then an eviction by kind takes the files of a running sandbox, although its reference is counted. */
  lemma {:induction false} ModeChangeLosesFiles() returns (s: State)
    ensures Reachable(Shared, s)
    ensures "a" in s.sandboxes && Backs(s.sandboxes["a"], Fork) && Fork in s.removed && CountOf(s.pool.inUse, "t") == 1
  {
    s := BackExclusive();
    s := Then(Shared, s, Choose(EvictByKind, Fork));
    s := Then(Shared, s, Evict(Fork));
  }

  /** And so does the delete of a second sandbox that took the same template exclusively. */
  lemma {:induction false} ModeChangeSharesExclusive() returns (s: State)
    ensures Reachable(Shared, s)
    ensures "a" in s.sandboxes && Backs(s.sandboxes["a"], Fork) && Fork in s.removed && s.doomed == multiset{}
  {
    s := BackExclusive();
    s := AcquireRuns(Shared, s, "b", Fork);
    s := StartRuns(Shared, s, "b", Fork);
    s := FinishRuns(Shared, s, "b");
    assert Fork in Cleaned(s.consumed, s.sandboxes["b"].meta);
    s := DeleteRuns(Shared, s, "b");
  }

  /** A rollback that cannot stop the VM gives its pin back: the files the VM reads can be evicted. */
  lemma {:induction false} StrayLosesFiles() returns (s: State)
    ensures Reachable(Shared, s) && ("a", Bare) in s.strays && Bare in s.removed
  {
    s := RolledBackStray();
    NothingHeld(s);
    s := Then(Shared, s, Choose(GcIfNeeded, Bare));
    s := Then(Shared, s, Evict(Bare));
  }

  lemma {:induction false} RolledBackStray() returns (s: State)
    ensures Reachable(Shared, s) && ("a", Bare) in s.strays && s.pool.available == {Bare}
    ensures s.sandboxes == map["a" := Sandbox(DefaultMeta, Idle)] && s.lost == multiset{} && s.leaked == multiset{} && s.pool.mode == Shared
  {
    s := OneTemplate(Shared, Bare);
    s := AcquireRuns(Shared, s, "a", Bare);
    s := StartRuns(Shared, s, "a", Bare);
    s := Then(Shared, s, On("a", PostRestoreFails(false, true)));
    s := Then(Shared, s, On("a", FailLease(true)));
    assert s.sandboxes == map["a" := Sandbox(DefaultMeta, Idle)];
  }

  lemma {:induction false} NothingHeld(s: State)
    requires Reachable(Shared, s) && s.sandboxes == map["a" := Sandbox(DefaultMeta, Idle)] && s.pool.mode == Shared
    requires s.lost == multiset{} && s.leaked == multiset{}
    ensures Evictable(GcIfNeeded, s.pool, Bare)
  {
    var steps :| RunTo(Shared, steps) == Some(s);
    EvictableExactly(Shared, steps, GcIfNeeded, Bare);
  }

  /** Two steps leak a restore, after which the template cannot be evicted; a restart ends the leak. */
  lemma {:induction false} LeakIsReachable() returns (s: State, s': State)
    ensures Reachable(Shared, s) && s.leaked["t"] == 1 && Bare in s.pool.available && !Evictable(GcIfNeeded, s.pool, Bare)
    ensures var again := Restart({}, {Bare}, Shared, {}, {});
            Enabled(s, again) && s' == Apply(s, again) && Reachable(Shared, s') && Enabled(s', Choose(GcIfNeeded, Bare))
  {
    s := OneTemplate(Shared, Bare);
    s := Then(Shared, s, AcquireWrongKind(Bare));
    s' := Then(Shared, s, Restart({}, {Bare}, Shared, {}, {}));
    assert s'.pool.inUse == map[];
  }

  /** A sandbox is restored a second time: the reference of its first restore stays counted although
      nobody holds it. */
  lemma {:induction false} LossIsReachable() returns (s: State)
    ensures Reachable(Shared, s) && s.lost["t"] == 1 && CountOf(s.pool.inUse, "t") == 2
    ensures s.sandboxes == map["a" := Sandbox(MetaIn(Shared, Fork), Restoring(LeaseIn(Shared, Fork)))]
  {
    s := SharedSandbox();
    s := Then(Shared, s, On("a", Acquire(Fork)));
    s := Then(Shared, s, On("a", SetMeta(FileBackend, false, [], false)));
    assert s.sandboxes == map["a" := Sandbox(MetaIn(Shared, Fork), Restoring(LeaseIn(Shared, Fork)))];
    LostHolder(s);
  }

  lemma {:induction false} LostHolder(s: State)
    requires Reachable(Shared, s) && s.lost["t"] == 1
    requires s.sandboxes == map["a" := Sandbox(MetaIn(Shared, Fork), Restoring(LeaseIn(Shared, Fork)))]
    ensures CountOf(s.pool.inUse, "t") == 2
  {
    var steps :| RunTo(Shared, steps) == Some(s);
    CountsAreExact(Shared, steps, "t");
    OnePlayer(Pins, Sandbox(MetaIn(Shared, Fork), Restoring(LeaseIn(Shared, Fork))));
    OnePlayer(Refs, Sandbox(MetaIn(Shared, Fork), Restoring(LeaseIn(Shared, Fork))));
  }
}
