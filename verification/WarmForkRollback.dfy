/** What becomes of the READY targets of an injection that commits nothing, and how the agent's
    per-target helpers appear as steps of the protocol.
 */
module WarmForkRollback {
  import opened Wrappers
  import opened InjectTask
  import opened WarmForkProtocol

  /** The agent has counted the target READY: it holds the connection, or has cancelled it. */
  predicate CountedReady(stage: Stage) {
    stage.Holding? || stage.Cancelled?
  }

  /** The prepare phase ended, with some target failed. */
  predicate Failing(mode: Mode, phase: RequestPhase) {
    || phase.Cancelling?
    || (phase.Done? && mode.InjectionMode? && phase.ended.prepare.Some? && !AllGood(phase.ended.prepare))
  }

  function PreparedOf(phase: RequestPhase): seq<Outcome> {
    match phase
    case Cancelling(os) => os
    case Done(ph) => ph.prepare.GetOr([])
    case _ => []
  }

  /** One connection of a request that is being, or has been, rolled back. */
  predicate RollOk(mode: Mode, phase: RequestPhase, idx: nat, task: Task, stage: Stage) {
    && (stage.Cancelled? ==> Failing(mode, phase))
    && (Failing(mode, phase) ==>
          && idx < |PreparedOf(phase)| && PreparedOf(phase)[idx] == StageOutcome(task, stage)
          && (CountedReady(stage) || stage.Failed?)
          && (phase.Done? ==> !stage.Holding?))
  }

  predicate ConnRollOk(cfg: Config, s: State, c: ConnId)
    requires |s.phases| == |cfg| && c in s.conns && Valid(cfg, c)
  {
    && RollOk(ModeOf(cfg[c.req]), s.phases[c.req], c.idx, TargetOf(cfg, c).task, s.conns[c].stage)
    && (s.conns[c].stage.Cancelled? ==> Ready in s.conns[c].toAgent)
  }

  ghost predicate RollInv(cfg: Config, s: State)
    requires WellFormed(cfg, s)
  {
    forall c :: c in s.conns ==> ConnRollOk(cfg, s, c)
  }

  // One connection.

  lemma {:induction false} LiveRoll(mode: Mode, phase: RequestPhase, idx: nat, t: Target, k: Conn, m: WorkloadMessage, status: Status)
    requires Live(phase, k)
    ensures RollOk(mode, phase, idx, t.task, Received(mode, t, phase, k, m).stage)
    ensures RollOk(mode, phase, idx, t.task, FailedConn(k, t, status, phase).stage)
    ensures RollOk(mode, phase, idx, t.task, AwaitCaps)
  {}

  lemma {:induction false} CancelRoll(mode: Mode, phase: RequestPhase, idx: nat, task: Task)
    requires phase.Cancelling? && RollOk(mode, phase, idx, task, Holding)
    ensures RollOk(mode, phase, idx, task, Cancelled)
  {}

  /** The request moves on. */
  lemma {:induction false} PhaseRoll(req: Request, phase: RequestPhase, p: RequestPhase, o: Option<seq<Outcome>>,
                                     idx: nat, task: Task, stage: Stage)
    requires RollOk(ModeOf(req), phase, idx, task, stage) && PhaseOk(req, phase) && !phase.Done?
    requires Moves(ModeOf(req), phase, p) || (phase.Committing? && p == EndedCommit(ModeOf(req), phase, o))
    requires phase.Cancelling? ==> !stage.Holding?
    ensures RollOk(ModeOf(req), p, idx, task, stage)
  {}

  lemma {:induction false} BarrierRoll(os: seq<Outcome>, idx: nat, task: Task, stage: Stage)
    requires stage.Holding? || stage.Failed?
    requires idx < |os| && os[idx] == StageOutcome(task, stage)
    ensures RollOk(InjectionMode, if AllGood(Some(os)) then Committing(Some(os)) else Cancelling(os), idx, task, stage)
  {}

  // One step.

  lemma {:induction false} AgentRoll(cfg: Config, s: State, step: Step)
    requires Inv(cfg, s) && RollInv(cfg, s) && Enabled(cfg, s, step)
    requires step.Open? || step.Fail? || step.Receive? || step.SendCancel? || step.SendCommit?
    ensures RollInv(cfg, Apply(cfg, s, step))
  {
    var c := step.c;
    var mode, t, phase, k := ModeOf(cfg[c.req]), TargetOf(cfg, c), s.phases[c.req], s.conns[c];
    assert ConnRollOk(cfg, s, c) && ConnInv(cfg, s, c);
    match step
    case Open(_) => LiveRoll(mode, phase, c.idx, t, k, Ready, ProtocolError); OneConnRoll(cfg, s, step, c);
    case Fail(_, status) => LiveRoll(mode, phase, c.idx, t, k, Ready, status); OneConnRoll(cfg, s, step, c);
    case Receive(_) => LiveRoll(mode, phase, c.idx, t, k, k.toAgent[k.agentRead], ProtocolError); OneConnRoll(cfg, s, step, c);
    case SendCancel(_, _) => CancelRoll(mode, phase, c.idx, t.task); OneConnRoll(cfg, s, step, c);
    case SendCommit(_) => OneConnRoll(cfg, s, step, c);
  }

  lemma {:induction false} OneConnRoll(cfg: Config, s: State, step: Step, c: ConnId)
    requires WellFormed(cfg, s) && RollInv(cfg, s) && Enabled(cfg, s, step) && c in s.conns
    requires Apply(cfg, s, step).phases == s.phases
    requires Apply(cfg, s, step).conns == s.conns[c := Apply(cfg, s, step).conns[c]]
    requires RollOk(ModeOf(cfg[c.req]), s.phases[c.req], c.idx, TargetOf(cfg, c).task, Apply(cfg, s, step).conns[c].stage)
    requires Apply(cfg, s, step).conns[c].stage.Cancelled? ==> Ready in Apply(cfg, s, step).conns[c].toAgent
    ensures RollInv(cfg, Apply(cfg, s, step))
  {
    var s' := Apply(cfg, s, step);
    forall d | d in s'.conns ensures ConnRollOk(cfg, s', d) {
      if d != c { assert ConnRollOk(cfg, s, d); }
    }
  }

  /** A step of request `r` that changes its phase and no connection. */
  lemma {:induction false} OnePhaseRoll(cfg: Config, s: State, step: Step, r: nat, p: RequestPhase)
    requires WellFormed(cfg, s) && RollInv(cfg, s) && Enabled(cfg, s, step) && r < |cfg|
    requires Apply(cfg, s, step) == SetPhase(s, r, p)
    requires forall i :: 0 <= i < |cfg[r].targets| ==>
      RollOk(ModeOf(cfg[r]), p, i, TargetOf(cfg, ConnId(r, i)).task, s.conns[ConnId(r, i)].stage)
    ensures RollInv(cfg, Apply(cfg, s, step))
  {
    var s' := Apply(cfg, s, step);
    forall d | d in s'.conns ensures ConnRollOk(cfg, s', d) {
      if d.req == r { assert d == ConnId(r, d.idx); } else { assert ConnRollOk(cfg, s, d); }
    }
  }

  lemma {:induction false} BarrierStepRoll(cfg: Config, s: State, r: nat)
    requires Inv(cfg, s) && RollInv(cfg, s) && Enabled(cfg, s, Barrier(r))
    ensures RollInv(cfg, Apply(cfg, s, Barrier(r)))
  {
    var os := Outcomes(cfg, s, r, |cfg[r].targets|);
    var p := if AllGood(Some(os)) then Committing(Some(os)) else Cancelling(os);
    forall i | 0 <= i < |cfg[r].targets|
      ensures RollOk(ModeOf(cfg[r]), p, i, TargetOf(cfg, ConnId(r, i)).task, s.conns[ConnId(r, i)].stage)
    {
      assert os[i] == StageOutcome(TargetOf(cfg, ConnId(r, i)).task, s.conns[ConnId(r, i)].stage);
      BarrierRoll(os, i, TargetOf(cfg, ConnId(r, i)).task, s.conns[ConnId(r, i)].stage);
    }
    OnePhaseRoll(cfg, s, Barrier(r), r, p);
  }

  /** The phase a request step leads to. */
  function PhaseAfter(cfg: Config, s: State, step: Step): RequestPhase
    requires WellFormed(cfg, s) && Enabled(cfg, s, step)
    requires step.Begin? || step.PrepareTimeout? || step.CancelDone? || step.CommitTimeout? || step.CommitDone?
  {
    var r := step.r;
    match step
    case Begin(_) => if ModeOf(cfg[r]).AutonomousStart? then Committing(None) else Preparing
    case PrepareTimeout(_) => Done(Phases(None, None, None))
    case CancelDone(_) => Done(Phases(None, Some(s.phases[r].prepared), None))
    case CommitTimeout(_) => EndedCommit(ModeOf(cfg[r]), s.phases[r], None)
    case CommitDone(_) => EndedCommit(ModeOf(cfg[r]), s.phases[r], Some(Outcomes(cfg, s, r, |cfg[r].targets|)))
  }

  lemma {:induction false} RequestRoll(cfg: Config, s: State, step: Step)
    requires Inv(cfg, s) && RollInv(cfg, s) && Enabled(cfg, s, step)
    requires step.Begin? || step.PrepareTimeout? || step.CancelDone? || step.CommitTimeout? || step.CommitDone?
    ensures RollInv(cfg, Apply(cfg, s, step))
  {
    var r, p := step.r, PhaseAfter(cfg, s, step);
    var o := if step.CommitDone? then Some(Outcomes(cfg, s, r, |cfg[r].targets|)) else None;
    assert PhaseOk(cfg[r], s.phases[r]);
    forall i | 0 <= i < |cfg[r].targets|
      ensures RollOk(ModeOf(cfg[r]), p, i, TargetOf(cfg, ConnId(r, i)).task, s.conns[ConnId(r, i)].stage)
    {
      assert ConnRollOk(cfg, s, ConnId(r, i));
      PhaseRoll(cfg[r], s.phases[r], p, o, i, TargetOf(cfg, ConnId(r, i)).task, s.conns[ConnId(r, i)].stage);
    }
    OnePhaseRoll(cfg, s, step, r, p);
  }

  lemma {:induction false} WorkloadRoll(cfg: Config, s: State, step: Step)
    requires Inv(cfg, s) && RollInv(cfg, s) && Enabled(cfg, s, step)
    requires step.Accept? || step.WorkloadReceive? || step.WorkloadDrop?
    ensures RollInv(cfg, Apply(cfg, s, step))
  {
    var s' := Apply(cfg, s, step);
    forall d | d in s'.conns ensures ConnRollOk(cfg, s', d) {
      assert ConnRollOk(cfg, s, d);
      WorkloadLog(cfg, s, step, d);
      Stays(s.conns[d].toAgent, s'.conns[d].toAgent);
    }
  }

  lemma {:induction false} WorkloadLog(cfg: Config, s: State, step: Step, d: ConnId)
    requires WellFormed(cfg, s) && Enabled(cfg, s, step) && (step.Accept? || step.WorkloadReceive? || step.WorkloadDrop?) && d in s.conns
    ensures var s' := Apply(cfg, s, step);
            s'.phases == s.phases && s'.conns[d].stage == s.conns[d].stage && s.conns[d].toAgent <= s'.conns[d].toAgent
  {}

  lemma {:induction false} Stays(a: seq<WorkloadMessage>, b: seq<WorkloadMessage>)
    requires a <= b
    ensures Ready in a ==> Ready in b
  {
    if Ready in a {
      var i :| 0 <= i < |a| && a[i] == Ready;
      assert b[i] == Ready;
    }
  }

  lemma {:induction false} StepRoll(cfg: Config, s: State, step: Step)
    requires Inv(cfg, s) && RollInv(cfg, s) && Enabled(cfg, s, step)
    ensures RollInv(cfg, Apply(cfg, s, step))
  {
    match step
    case Barrier(r) => BarrierStepRoll(cfg, s, r);
    case Begin(_) => RequestRoll(cfg, s, step);
    case PrepareTimeout(_) => RequestRoll(cfg, s, step);
    case CancelDone(_) => RequestRoll(cfg, s, step);
    case CommitTimeout(_) => RequestRoll(cfg, s, step);
    case CommitDone(_) => RequestRoll(cfg, s, step);
    case Accept(_, _, _) => WorkloadRoll(cfg, s, step);
    case WorkloadReceive(_) => WorkloadRoll(cfg, s, step);
    case WorkloadDrop(_) => WorkloadRoll(cfg, s, step);
    case _ => AgentRoll(cfg, s, step);
  }

  lemma {:induction false} RunRoll(cfg: Config, run: seq<State>)
    requires IsRun(cfg, run)
    ensures RollInv(cfg, run[|run| - 1])
  {
    var n := |run| - 1;
    if n > 0 {
      RunRoll(cfg, run[..n]);
      RunInv(cfg, run[..n]);
      assert Next(cfg, run[n - 1], run[n - 1 + 1]);
      var step :| Enabled(cfg, run[n - 1], step) && run[n] == Apply(cfg, run[n - 1], step);
      StepRoll(cfg, run[n - 1], step);
    }
  }

  /** In every run, a finished injection that committed nothing has cancelled a target it had counted
      READY if and only if its prepare phase did not time out. Unless it did, the targets cancelled
      are exactly those whose outcome was good. */
  lemma {:induction false} RollbackIsComplete(cfg: Config, run: seq<State>, c: ConnId)
    requires IsRun(cfg, run) && Valid(cfg, c) && ModeOf(cfg[c.req]).InjectionMode?
    requires |run[|run| - 1].phases| == |cfg| && run[|run| - 1].phases[c.req].Done?
    requires !AllGood(run[|run| - 1].phases[c.req].ended.prepare)
    ensures var s := run[|run| - 1];
            var prepare, k := s.phases[c.req].ended.prepare, s.conns[c];
            && (CountedReady(k.stage) ==> Ready in k.toAgent && (k.stage.Cancelled? <==> prepare.Some?))
            && (prepare.Some? ==> c.idx < |prepare.value| && (k.stage.Cancelled? <==> prepare.value[c.idx].Good?))
            && (prepare.None? ==> !k.stage.Cancelled?)
  {
    RunRoll(cfg, run);
    RunInv(cfg, run);
    var s := run[|run| - 1];
    assert ConnRollOk(cfg, s, c) && ConnInv(cfg, s, c);
  }

  // ---- A READY target that is never told ----

  ghost predicate Reachable(cfg: Config, s: State) {
    exists run :: IsRun(cfg, run) && run[|run| - 1] == s
  }

  lemma {:induction false} RunExtends(cfg: Config, run: seq<State>, s': State)
    requires IsRun(cfg, run) && WellFormed(cfg, s') && Next(cfg, run[|run| - 1], s')
    ensures IsRun(cfg, run + [s'])
  {
    var more := run + [s'];
    forall i | 0 <= i < |more| - 1 ensures Next(cfg, more[i], more[i + 1]) {
      if i < |run| - 1 { assert more[i] == run[i] && more[i + 1] == run[i + 1]; }
    }
  }

  lemma {:induction false} Then(cfg: Config, s: State, step: Step) returns (s': State)
    requires Reachable(cfg, s) && WellFormed(cfg, s) && Enabled(cfg, s, step)
    ensures s' == Apply(cfg, s, step) && WellFormed(cfg, s') && Reachable(cfg, s')
  {
    var run :| IsRun(cfg, run) && run[|run| - 1] == s;
    s' := Apply(cfg, s, step);
    RunExtends(cfg, run, s');
    assert (run + [s'])[|run|] == s';
  }

  const First := Target(Task("c0", "s0", Payload("task0", map[], "")), "w0")
  const Second := Target(Task("c1", "s1", Payload("task1", map[], "")), "w1")
  const TwoTargets: Config := [Inject([First, Second])]
  const C0 := ConnId(0, 0)
  const C1 := ConnId(0, 1)

  lemma {:induction false} TwoTargetsInject()
    ensures ModeOf(TwoTargets[0]).InjectionMode?
  {
    var tasks := Tasks(TwoTargets[0].targets);
    assert tasks[0].payload.taskId == "task0";
  }

  const Hello := Capabilities(PROTOCOL_VERSION)
  const Order := Prepare(First.task.payload)

  /** The first connection: greeted, told to prepare, answered, counted READY. */
  const Greeted := Conn(AwaitCaps, true, [], 0, [Hello], 0)
  const Told := Conn(AwaitReply, true, [Order], 0, [Hello], 1)
  const Replied := Conn(AwaitReply, true, [Order], 1, [Hello, Ready], 1)
  const Held := Conn(Holding, true, [Order], 1, [Hello, Ready], 2)

  function With(k: Conn, w: Workload, phase: RequestPhase): State {
    State([phase], map[C0 := k, C1 := Fresh], map["w0" := w, "w1" := Accepting])
  }

  lemma {:induction false} WithIsWellFormed(k: Conn, w: Workload, phase: RequestPhase)
    ensures WellFormed(TwoTargets, With(k, w, phase))
  {
    assert forall c :: Valid(TwoTargets, c) ==> c == C0 || c == C1;
  }

  predicate Leads(k: Conn, w: Workload, phase: RequestPhase, step: Step, k': Conn, w': Workload, phase': RequestPhase)
    requires WellFormed(TwoTargets, With(k, w, phase))
  {
    Enabled(TwoTargets, With(k, w, phase), step) && Apply(TwoTargets, With(k, w, phase), step) == With(k', w', phase')
  }

  ghost predicate There(k: Conn, w: Workload, phase: RequestPhase) {
    WellFormed(TwoTargets, With(k, w, phase)) && Reachable(TwoTargets, With(k, w, phase))
  }

  lemma {:induction false} Leading(k: Conn, w: Workload, phase: RequestPhase, step: Step, k': Conn, w': Workload, phase': RequestPhase)
    requires There(k, w, phase) && Leads(k, w, phase, step, k', w', phase')
    ensures There(k', w', phase')
  {
    var s := Then(TwoTargets, With(k, w, phase), step);
  }

  lemma {:induction false} SetC0(k: Conn, w: Workload, phase: RequestPhase, k': Conn)
    ensures SetConn(With(k, w, phase), C0, k') == With(k', w, phase)
  {
    assert With(k, w, phase).conns[C0 := k'] == With(k', w, phase).conns;
  }

  lemma {:induction false} SetW0(k: Conn, w: Workload, phase: RequestPhase, w': Workload)
    ensures With(k, w, phase).(workloads := With(k, w, phase).workloads["w0" := w']) == With(k, w', phase)
  {
    assert With(k, w, phase).workloads["w0" := w'] == With(k, w', phase).workloads;
  }

  lemma {:induction false} OpenLeads()
    requires WellFormed(TwoTargets, With(Fresh, Accepting, Preparing))
    ensures Leads(Fresh, Accepting, Preparing, Open(C0), Opened, Accepting, Preparing)
  {
    SetC0(Fresh, Accepting, Preparing, Opened);
  }

  lemma {:induction false} GreetLeads()
    requires WellFormed(TwoTargets, With(Opened, Accepting, Preparing))
    ensures Leads(Opened, Accepting, Preparing, Accept("w0", C0, PROTOCOL_VERSION), Greeted, AwaitFirst(C0), Preparing)
  {
    assert Opened.(accepted := true, toAgent := [] + [Hello]) == Greeted;
    SetC0(Opened, Accepting, Preparing, Greeted);
    SetW0(Greeted, Accepting, Preparing, AwaitFirst(C0));
  }

  lemma {:induction false} ReceiveLeads(k: Conn, w: Workload, m: WorkloadMessage, k': Conn)
    requires WellFormed(TwoTargets, With(k, w, Preparing)) && ModeOf(TwoTargets[0]).InjectionMode?
    requires Live(Preparing, k) && !k.stage.Unopened? && k.agentRead < |k.toAgent| && k.toAgent[k.agentRead] == m
    requires Received(InjectionMode, First, Preparing, k, m) == k'
    ensures Leads(k, w, Preparing, Receive(C0), k', w, Preparing)
  {
    SetC0(k, w, Preparing, k');
  }

  lemma {:induction false} ReplyLeads(w: Workload)
    requires WellFormed(TwoTargets, With(Told, AwaitFirst(C0), Preparing)) && w == AwaitCommit(C0, First.task.payload)
    ensures Leads(Told, AwaitFirst(C0), Preparing, WorkloadReceive("w0"), Replied, w, Preparing)
  {
    assert |First.task.payload.taskId| == 5 && [Hello] + [Ready] == [Hello, Ready];
    assert WorkloadReceived(AwaitFirst(C0), Told) == (w, Replied);
    SetC0(Told, AwaitFirst(C0), Preparing, Replied);
    SetW0(Replied, AwaitFirst(C0), Preparing, w);
  }

  lemma {:induction false} BeginRuns()
    ensures There(Fresh, Accepting, Preparing)
  {
    WithIsWellFormed(Fresh, Accepting, Waiting);
    var s := With(Fresh, Accepting, Waiting);
    assert IsRun(TwoTargets, [s]) && [s][0] == s;
    TwoTargetsInject();
    Leading(Fresh, Accepting, Waiting, Begin(0), Fresh, Accepting, Preparing);
  }

  lemma {:induction false} GreetRuns()
    ensures There(Greeted, AwaitFirst(C0), Preparing)
  {
    BeginRuns();
    OpenLeads();
    Leading(Fresh, Accepting, Preparing, Open(C0), Opened, Accepting, Preparing);
    GreetLeads();
    Leading(Opened, Accepting, Preparing, Accept("w0", C0, PROTOCOL_VERSION), Greeted, AwaitFirst(C0), Preparing);
  }

  lemma {:induction false} HoldRuns(w: Workload)
    requires w == AwaitCommit(C0, First.task.payload)
    ensures There(Held, w, Preparing)
  {
    GreetRuns();
    TwoTargetsInject();
    ReceiveLeads(Greeted, AwaitFirst(C0), Hello, Told);
    Leading(Greeted, AwaitFirst(C0), Preparing, Receive(C0), Told, AwaitFirst(C0), Preparing);
    ReplyLeads(w);
    Leading(Told, AwaitFirst(C0), Preparing, WorkloadReceive("w0"), Replied, w, Preparing);
    ReceiveLeads(Replied, w, Ready, Held);
    Leading(Replied, w, Preparing, Receive(C0), Held, w, Preparing);
  }

  /** Of two targets one is READY and the other silent when the prepare phase times out: the first is
      told nothing, and its workload still waits for a COMMIT. */
  lemma {:induction false} TimeoutLeavesReady() returns (s: State)
    ensures Reachable(TwoTargets, s) && s.phases == [Done(Phases(None, None, None))]
    ensures C0 in s.conns && s.conns[C0].stage.Holding? && s.conns[C0].toWorkload == [Order]
    ensures "w0" in s.workloads && s.workloads["w0"] == AwaitCommit(C0, First.task.payload)
  {
    var w, end := AwaitCommit(C0, First.task.payload), Done(Phases(None, None, None));
    HoldRuns(w);
    Leading(Held, w, Preparing, PrepareTimeout(0), Held, w, end);
    s := With(Held, w, end);
  }

  // ---- The helpers of the agent, step by step ----

  /** A connection just opened. */
  const Opened := Conn(AwaitCaps, false, [], 0, [], 0)

  /** `inject_prepare_one` is what the agent does with the first two messages of a connection, and an
      error at any point is a failure step with the status it reports. */
  lemma {:induction false} PrepareIsSteps(t: Target, caps: WorkloadMessage, reply: WorkloadMessage, connect: Connect)
    ensures var k1 := Received(InjectionMode, t, Preparing, Opened, caps);
            var k2 := Received(InjectionMode, t, Preparing, k1, reply);
            && (k1.stage.Failed? <==> !VersionOk(Some(caps)))
            && (k1.stage.Failed? ==> Bad(k1.stage.result) == PrepareOne(t.task, Connected, Some(caps), true, Some(reply)))
            && (!k1.stage.Failed? ==> k1.toWorkload == [Prepare(t.task.payload)]
                                      && StageOutcome(t.task, k2.stage) == PrepareOne(t.task, Connected, Some(caps), true, Some(reply)))
    ensures !connect.Connected? ==>
              StageOutcome(t.task, FailedConn(Fresh, t, ConnectStatus(connect), Preparing).stage) == PrepareOne(t.task, connect, None, false, None)
    ensures StageOutcome(t.task, FailedConn(Opened, t, ProtocolError, Preparing).stage) == PrepareOne(t.task, Connected, None, false, None)
    ensures forall k, wrote :: k == Received(InjectionMode, t, Preparing, Opened, caps) && VersionOk(Some(caps)) ==>
              StageOutcome(t.task, FailedConn(k, t, ProtocolError, Preparing).stage) == PrepareOne(t.task, Connected, Some(caps), wrote, None)
  {}

  /** `inject_commit_one` is the agent's last message of an injection. */
  lemma {:induction false} CommitIsStep(t: Target, k: Conn, ready: Option<seq<Outcome>>, reply: WorkloadMessage)
    requires k.stage.AwaitStarted?
    ensures var k' := Received(InjectionMode, t, Committing(ready), k, reply);
            StageOutcome(t.task, k'.stage) == CommitOne(t.task.containerId, true, Some(reply))
    ensures forall wrote ::
              StageOutcome(t.task, FailedConn(k, t, ProtocolError, Committing(ready)).stage) == CommitOne(t.task.containerId, wrote, None)
  {}

  /** `inject_autonomous_one` is the agent's part in autonomous mode. */
  lemma {:induction false} AutonomousIsSteps(t: Target, caps: WorkloadMessage, reply: WorkloadMessage, connect: Connect)
    ensures var phase := Committing(None);
            var k1 := Received(AutonomousStart, t, phase, Opened, caps);
            var k2 := Received(AutonomousStart, t, phase, k1, reply);
            && (k1.stage.Failed? <==> !VersionOk(Some(caps)))
            && (k1.stage.Failed? ==> Bad(k1.stage.result) == AutonomousOne(t.task, Connected, Some(caps), true, Some(reply)))
            && (!k1.stage.Failed? ==> k1.toWorkload == [Commit]
                                      && StageOutcome(t.task, k2.stage) == AutonomousOne(t.task, Connected, Some(caps), true, Some(reply)))
    ensures !connect.Connected? ==>
              StageOutcome(t.task, FailedConn(Fresh, t, ConnectStatus(connect), Committing(None)).stage) == AutonomousOne(t.task, connect, None, false, None)
    ensures StageOutcome(t.task, FailedConn(Opened, t, ProtocolError, Committing(None)).stage) == AutonomousOne(t.task, Connected, None, false, None)
    ensures forall k, wrote :: k == Received(AutonomousStart, t, Committing(None), Opened, caps) && VersionOk(Some(caps)) ==>
              StageOutcome(t.task, FailedConn(k, t, ProtocolError, Committing(None)).stage) == AutonomousOne(t.task, Connected, Some(caps), wrote, None)
  {}
}
