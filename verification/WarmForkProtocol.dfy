/** The WarmFork readiness and injection protocol as a state machine.

    Any number of requests (injections and readiness probes) run concurrently against any number
    of workloads. A step is one message sent or received, one connection lost, one timeout or one
    barrier; the two byte streams of a connection are append-only logs with a read position, so
    "was sent" is membership in a log. The agent is `inject_task` with its per-target helpers, a
    workload is the loop of `wait_for_injection`.
 */
module WarmForkProtocol {
  import opened Wrappers
  import opened InjectTask

  /** One target of a request and the workload that listens on its readiness socket. */
  datatype Target = Target(task: Task, workload: string)

  datatype Request = Inject(targets: seq<Target>) | Probe(targets: seq<Target>)

  datatype Mode = InjectionMode | AutonomousStart | ProbeOnly

  datatype ConnId = ConnId(req: nat, idx: nat)

  /** How far the agent got with one connection. */
  datatype Stage = Unopened | AwaitCaps | AwaitReply | Holding | AwaitStarted | Succeeded | Cancelled | Failed(result: Result)

  datatype Conn = Conn(
    stage: Stage,
    accepted: bool,
    toWorkload: seq<SandboxerMessage>, workloadRead: nat,
    toAgent: seq<WorkloadMessage>, agentRead: nat)

  datatype RequestPhase =
    | Waiting
    | Preparing
    | Cancelling(prepared: seq<Outcome>)
    | Committing(ready: Option<seq<Outcome>>)
    | Done(ended: Phases)

  /** `wait_for_injection`: accepting, inside one connection, returned (begun), or exited. */
  datatype Workload =
    | Accepting
    | AwaitFirst(conn: ConnId)
    | AwaitCommit(conn: ConnId, held: Payload)
    | Begun(conn: ConnId, params: Payload)
    | Exited(conn: ConnId)

  datatype State = State(phases: seq<RequestPhase>, conns: map<ConnId, Conn>, workloads: map<string, Workload>)

  type Config = seq<Request>

  predicate Valid(cfg: Config, c: ConnId) {
    c.req < |cfg| && c.idx < |cfg[c.req].targets|
  }

  function TargetOf(cfg: Config, c: ConnId): Target
    requires Valid(cfg, c)
  {
    cfg[c.req].targets[c.idx]
  }

  function Tasks(targets: seq<Target>): (ts: seq<Task>)
    ensures |ts| == |targets| && forall i :: 0 <= i < |ts| ==> ts[i] == targets[i].task
  {
    if targets == [] then [] else Tasks(targets[..|targets| - 1]) + [targets[|targets| - 1].task]
  }

  function ModeOf(req: Request): Mode {
    if req.Probe? then ProbeOnly
    else if AutonomousMode(Tasks(req.targets)) then AutonomousStart
    else InjectionMode
  }

  ghost predicate WellFormed(cfg: Config, s: State) {
    && |s.phases| == |cfg|
    && forall c :: Valid(cfg, c) <==> c in s.conns
  }

  const Fresh := Conn(Unopened, false, [], 0, [], 0)

  ghost predicate Init(cfg: Config, s: State) {
    && WellFormed(cfg, s)
    && (forall r :: 0 <= r < |s.phases| ==> s.phases[r] == Waiting)
    && (forall c :: c in s.conns ==> s.conns[c] == Fresh)
    && (forall w :: w in s.workloads ==> s.workloads[w] == Accepting)
  }

  // ---- Steps of the agent ----

  datatype Step =
    | Begin(r: nat)
    | Open(c: ConnId)
    | Fail(c: ConnId, status: Status)
    | Receive(c: ConnId)
    | PrepareTimeout(r: nat)
    | Barrier(r: nat)
    | SendCancel(c: ConnId, written: bool)
    | CancelDone(r: nat)
    | SendCommit(c: ConnId)
    | CommitTimeout(r: nat)
    | CommitDone(r: nat)
    | Accept(w: string, c: ConnId, version: string)
    | WorkloadReceive(w: string)
    | WorkloadDrop(w: string)

  function StageOutcome(task: Task, stage: Stage): Outcome {
    if stage.Failed? then Bad(stage.result) else Good(task.containerId)
  }

  /** The outcomes of the first `n` targets of request `r`, as `join_all` returns them. */
  function Outcomes(cfg: Config, s: State, r: nat, n: nat): (os: seq<Outcome>)
    requires WellFormed(cfg, s) && r < |cfg| && n <= |cfg[r].targets|
    ensures |os| == n
    ensures forall i :: 0 <= i < n ==>
      os[i] == StageOutcome(TargetOf(cfg, ConnId(r, i)).task, s.conns[ConnId(r, i)].stage)
  {
    if n == 0 then []
    else Outcomes(cfg, s, r, n - 1) +
         [StageOutcome(TargetOf(cfg, ConnId(r, n - 1)).task, s.conns[ConnId(r, n - 1)].stage)]
  }

  predicate Settled(cfg: Config, s: State, r: nat, ok: Stage)
    requires WellFormed(cfg, s) && r < |cfg|
  {
    forall i :: 0 <= i < |cfg[r].targets| ==>
      s.conns[ConnId(r, i)].stage == ok || s.conns[ConnId(r, i)].stage.Failed?
  }

  function FailedConn(k: Conn, t: Target, status: Status, phase: RequestPhase): Conn {
    k.(stage := Failed(Result(t.task.containerId, status, if phase.Committing? then CommitPhase else PreparePhase)))
  }

  predicate Live(phase: RequestPhase, k: Conn) {
    (phase.Preparing? || phase.Committing?) && (k.stage.Unopened? || k.stage.AwaitCaps? || k.stage.AwaitReply? || k.stage.AwaitStarted?)
  }

  /** What the agent does with the next message of a connection. */
  function Received(mode: Mode, t: Target, phase: RequestPhase, k: Conn, m: WorkloadMessage): Conn {
    var k' := k.(agentRead := k.agentRead + 1);
    match k.stage
    case AwaitCaps =>
      if m != Capabilities(PROTOCOL_VERSION) then FailedConn(k', t, ProtocolError, phase)
      else if mode.ProbeOnly? then k'.(stage := Succeeded)
      else if mode.AutonomousStart? then k'.(stage := AwaitStarted, toWorkload := k.toWorkload + [Commit])
      else k'.(stage := AwaitReply, toWorkload := k.toWorkload + [Prepare(t.task.payload)])
    case AwaitReply =>
      if m.Ready? then k'.(stage := Holding)
      else FailedConn(k', t, if m.Reject? then Rejected else ProtocolError, phase)
    case _ =>
      if m.Started? then k'.(stage := Succeeded) else FailedConn(k', t, ProtocolError, phase)
  }

  // ---- Steps of a workload ----

  /** What a workload does with the next message of the connection it serves. */
  function WorkloadReceived(wl: Workload, k: Conn): (Workload, Conn)
    requires wl.AwaitFirst? || wl.AwaitCommit?
    requires k.workloadRead < |k.toWorkload|
  {
    var m := k.toWorkload[k.workloadRead];
    var k' := k.(workloadRead := k.workloadRead + 1);
    match wl
    case AwaitFirst(c) =>
      (match m
       case Prepare(p) =>
         if p.taskId == "" then (Accepting, k'.(toAgent := k.toAgent + [Reject]))
         else (AwaitCommit(c, p), k'.(toAgent := k.toAgent + [Ready]))
       case Commit => (Begun(c, Payload("", map[], "")), k'.(toAgent := k.toAgent + [Started]))
       case Cancel => (Exited(c), k'))
    case AwaitCommit(c, p) =>
      (match m
       case Commit => (Begun(c, p), k'.(toAgent := k.toAgent + [Started]))
       case Cancel => (Exited(c), k')
       case Prepare(_) => (Accepting, k'))
  }

  predicate Enabled(cfg: Config, s: State, step: Step)
    requires WellFormed(cfg, s)
  {
    match step
    case Begin(r) => r < |cfg| && s.phases[r].Waiting?
    case Open(c) => c in s.conns && Live(s.phases[c.req], s.conns[c]) && s.conns[c].stage.Unopened?
    case Fail(c, status) => c in s.conns && Live(s.phases[c.req], s.conns[c]) && status != InjectStarted
    case Receive(c) =>
      && c in s.conns && Live(s.phases[c.req], s.conns[c]) && !s.conns[c].stage.Unopened?
      && s.conns[c].agentRead < |s.conns[c].toAgent|
    case PrepareTimeout(r) => r < |cfg| && s.phases[r].Preparing?
    case Barrier(r) => r < |cfg| && s.phases[r].Preparing? && Settled(cfg, s, r, Holding) && ModeOf(cfg[r]).InjectionMode?
    case SendCancel(c, _) => c in s.conns && s.phases[c.req].Cancelling? && s.conns[c].stage.Holding?
    case CancelDone(r) => r < |cfg| && s.phases[r].Cancelling? && Settled(cfg, s, r, Cancelled)
    case SendCommit(c) =>
      c in s.conns && s.phases[c.req].Committing? && s.conns[c].stage.Holding?
    case CommitTimeout(r) => r < |cfg| && s.phases[r].Committing?
    case CommitDone(r) => r < |cfg| && s.phases[r].Committing? && Settled(cfg, s, r, Succeeded)
    case Accept(w, c, _) =>
      && w in s.workloads && s.workloads[w].Accepting? && c in s.conns
      && TargetOf(cfg, c).workload == w && !s.conns[c].accepted && !s.conns[c].stage.Unopened?
    case WorkloadReceive(w) =>
      && w in s.workloads && (s.workloads[w].AwaitFirst? || s.workloads[w].AwaitCommit?)
      && s.workloads[w].conn in s.conns
      && s.conns[s.workloads[w].conn].workloadRead < |s.conns[s.workloads[w].conn].toWorkload|
    case WorkloadDrop(w) => w in s.workloads && (s.workloads[w].AwaitFirst? || s.workloads[w].AwaitCommit?)
  }

  function SetConn(s: State, c: ConnId, k: Conn): State {
    s.(conns := s.conns[c := k])
  }

  function SetPhase(s: State, r: nat, p: RequestPhase): State
    requires r < |s.phases|
  {
    s.(phases := s.phases[r := p])
  }

  /** How a request ends when its commit phase does. */
  function EndedCommit(mode: Mode, phase: RequestPhase, outcomes: Option<seq<Outcome>>): RequestPhase
    requires phase.Committing?
  {
    if mode.InjectionMode? then Done(Phases(None, phase.ready, outcomes)) else Done(Phases(outcomes, None, None))
  }

  /** One step. A connection whose request is `Done` has been closed by the agent; losing a
      connection on either side, at any moment, is `Fail` or `WorkloadDrop`, and the end of file a
      workload sees after a probe or a timeout is a `WorkloadDrop`. */
  function Apply(cfg: Config, s: State, step: Step): (s': State)
    requires WellFormed(cfg, s) && Enabled(cfg, s, step)
    ensures WellFormed(cfg, s')
  {
    match step
    case Begin(r) =>
      SetPhase(s, r, if ModeOf(cfg[r]).AutonomousStart? then Committing(None) else Preparing)
    case Open(c) => SetConn(s, c, s.conns[c].(stage := AwaitCaps))
    case Fail(c, status) => SetConn(s, c, FailedConn(s.conns[c], TargetOf(cfg, c), status, s.phases[c.req]))
    case Receive(c) =>
      var k := s.conns[c];
      SetConn(s, c, Received(ModeOf(cfg[c.req]), TargetOf(cfg, c), s.phases[c.req], k, k.toAgent[k.agentRead]))
    case PrepareTimeout(r) => SetPhase(s, r, Done(Phases(None, None, None)))
    case Barrier(r) =>
      var os := Outcomes(cfg, s, r, |cfg[r].targets|);
      SetPhase(s, r, if AllGood(Some(os)) then Committing(Some(os)) else Cancelling(os))
    case SendCancel(c, written) =>
      var k := s.conns[c];
      SetConn(s, c, k.(stage := Cancelled, toWorkload := k.toWorkload + (if written then [Cancel] else [])))
    case CancelDone(r) => SetPhase(s, r, Done(Phases(None, Some(s.phases[r].prepared), None)))
    case SendCommit(c) =>
      SetConn(s, c, s.conns[c].(stage := AwaitStarted, toWorkload := s.conns[c].toWorkload + [Commit]))
    case CommitTimeout(r) => SetPhase(s, r, EndedCommit(ModeOf(cfg[r]), s.phases[r], None))
    case CommitDone(r) =>
      SetPhase(s, r, EndedCommit(ModeOf(cfg[r]), s.phases[r], Some(Outcomes(cfg, s, r, |cfg[r].targets|))))
    case Accept(w, c, version) =>
      SetConn(s, c, s.conns[c].(accepted := true, toAgent := s.conns[c].toAgent + [Capabilities(version)]))
      .(workloads := s.workloads[w := AwaitFirst(c)])
    case WorkloadReceive(w) =>
      var (wl, k) := WorkloadReceived(s.workloads[w], s.conns[s.workloads[w].conn]);
      SetConn(s, s.workloads[w].conn, k).(workloads := s.workloads[w := wl])
    case WorkloadDrop(w) => s.(workloads := s.workloads[w := Accepting])
  }

  ghost predicate Next(cfg: Config, s: State, s': State)
    requires WellFormed(cfg, s)
  {
    exists step :: Enabled(cfg, s, step) && s' == Apply(cfg, s, step)
  }

  /** A run: an initial state and any interleaving of steps. */
  ghost predicate IsRun(cfg: Config, run: seq<State>) {
    && run != [] && Init(cfg, run[0])
    && (forall i :: 0 <= i < |run| ==> WellFormed(cfg, run[i]))
    && forall i :: 0 <= i < |run| - 1 ==> Next(cfg, run[i], run[i + 1])
  }

  // ---- Invariant ----

  /** COMMIT may have been sent: the prepare phase ended with every target READY. */
  predicate CommitAllowed(mode: Mode, phase: RequestPhase) {
    match phase
    case Committing(_) => true
    case Done(ph) => if mode.InjectionMode? then AllGood(ph.prepare) else mode.AutonomousStart?
    case _ => false
  }

  /** CANCEL may have been sent: the prepare phase ended with some target failed. */
  predicate CancelAllowed(phase: RequestPhase) {
    phase.Cancelling? || (phase.Done? && phase.ended.prepare.Some? && !AllGood(phase.ended.prepare))
  }

  /** What the agent has written so far, in each mode. */
  predicate SentShape(mode: Mode, t: Target, k: Conn) {
    match mode
    case ProbeOnly => k.toWorkload == []
    case AutonomousStart =>
      k.toWorkload == [] || (k.toWorkload == [Commit] && !k.stage.Unopened? && !k.stage.AwaitCaps?)
    case InjectionMode =>
      var p := Prepare(t.task.payload);
      match k.stage
      case Unopened => k.toWorkload == []
      case AwaitCaps => k.toWorkload == []
      case AwaitReply => k.toWorkload == [p]
      case Holding => k.toWorkload == [p]
      case AwaitStarted => k.toWorkload == [p, Commit]
      case Succeeded => k.toWorkload == [p, Commit]
      case Cancelled => k.toWorkload == [p] || k.toWorkload == [p, Cancel]
      case Failed(_) => k.toWorkload == [] || k.toWorkload == [p] || k.toWorkload == [p, Commit]
  }

  predicate ConnOk(mode: Mode, phase: RequestPhase, t: Target, k: Conn) {
    && k.workloadRead <= |k.toWorkload| && k.agentRead <= |k.toAgent|
    && SentShape(mode, t, k)
    && (Commit in k.toWorkload ==> CommitAllowed(mode, phase))
    && (Cancel in k.toWorkload ==> CancelAllowed(phase))
    && (mode.InjectionMode? && CommitAllowed(mode, phase) ==> Ready in k.toAgent)
    && (k.stage.AwaitReply? ==> mode.InjectionMode?)
    && (k.stage.Holding? ==> mode.InjectionMode? && Ready in k.toAgent)
    && (k.stage.Succeeded? && !mode.ProbeOnly? ==> Started in k.toAgent)
    && (Started in k.toAgent ==> Commit in k.toWorkload)
    && (Ready in k.toAgent && mode.InjectionMode? ==> t.task.payload.taskId != "")
    && (k.stage.Failed? ==> k.stage.result.containerId == t.task.containerId && k.stage.result.status != InjectStarted)
    && (k.stage.Failed? && phase.Preparing? ==> k.stage.result.phase == PreparePhase)
    && (k.stage.Failed? && phase.Committing? ==> k.stage.result.phase == CommitPhase)
    && (phase.Waiting? ==> k.stage.Unopened?)
    && (k.stage.Unopened? ==> !k.accepted)
    && (!k.accepted ==> k.workloadRead == 0 && k.toAgent == [])
  }

  predicate PhaseOk(req: Request, phase: RequestPhase) {
    var tasks := Tasks(req.targets);
    match phase
    case Cancelling(os) => ModeOf(req).InjectionMode? && OutcomesOf(os, tasks, PreparePhase) && !AllGood(Some(os))
    case Committing(o) =>
      if ModeOf(req).InjectionMode? then o.Some? && OutcomesOf(o.value, tasks, PreparePhase) && AllGood(o)
      else ModeOf(req).AutonomousStart?
    case Done(ph) => PhasesOf(tasks, ph) && (ModeOf(req).ProbeOnly? ==> ph == Phases(None, None, None))
    case Preparing => !ModeOf(req).AutonomousStart?
    case Waiting => true
  }

  /** A reply that reports every target good was earned by every connection. */
  predicate DoneOk(mode: Mode, phase: RequestPhase, k: Conn) {
    phase.Done? && AllGood(if mode.InjectionMode? then phase.ended.commit else phase.ended.auto) ==> Started in k.toAgent
  }

  /** A workload and the connection it serves, served last, or began on. */
  predicate ServesOk(mode: Mode, t: Target, k: Conn, w: string, wl: Workload)
    requires !wl.Accepting?
  {
    && t.workload == w && k.accepted
    && match wl
       case AwaitFirst(_) => k.workloadRead == 0 && Started !in k.toAgent
       case AwaitCommit(_, p) =>
         && k.workloadRead == 1 && k.toWorkload != [] && k.toWorkload[0] == Prepare(p)
         && Ready in k.toAgent && p.taskId != "" && Started !in k.toAgent
       case Begun(_, p) =>
         && Started in k.toAgent
         && (if mode.InjectionMode? then p == t.task.payload && p.taskId != ""
             else mode.AutonomousStart? && p.taskId == "")
       case Exited(_) => Cancel in k.toWorkload
  }

  ghost predicate WorkloadOk(cfg: Config, s: State, w: string)
    requires WellFormed(cfg, s) && w in s.workloads
  {
    var wl := s.workloads[w];
    !wl.Accepting? ==>
      wl.conn in s.conns && ServesOk(ModeOf(cfg[wl.conn.req]), TargetOf(cfg, wl.conn), s.conns[wl.conn], w, wl)
  }

  /** Whoever sent STARTED has begun, on that connection. */
  ghost predicate StartedOk(cfg: Config, s: State, c: ConnId)
    requires WellFormed(cfg, s) && c in s.conns
  {
    Started in s.conns[c].toAgent ==>
      var w := TargetOf(cfg, c).workload;
      w in s.workloads && s.workloads[w].Begun? && s.workloads[w].conn == c
  }

  ghost predicate ConnInv(cfg: Config, s: State, c: ConnId)
    requires WellFormed(cfg, s) && c in s.conns
  {
    && ConnOk(ModeOf(cfg[c.req]), s.phases[c.req], TargetOf(cfg, c), s.conns[c])
    && DoneOk(ModeOf(cfg[c.req]), s.phases[c.req], s.conns[c])
    && StartedOk(cfg, s, c)
  }

  ghost predicate Inv(cfg: Config, s: State) {
    && WellFormed(cfg, s)
    && (forall r :: 0 <= r < |cfg| ==> PhaseOk(cfg[r], s.phases[r]))
    && (forall c :: c in s.conns ==> ConnInv(cfg, s, c))
    && (forall w :: w in s.workloads ==> WorkloadOk(cfg, s, w))
  }

  lemma {:induction false} InitInv(cfg: Config, s: State)
    requires Init(cfg, s)
    ensures Inv(cfg, s)
  {}

  // ---- Steps on one connection keep its part of the invariant ----

  predicate AgentWrote(k: Conn, k': Conn) {
    && k'.toAgent == k.toAgent && k'.accepted == k.accepted && k'.workloadRead == k.workloadRead
    && k.toWorkload <= k'.toWorkload
  }

  lemma {:induction false} ReceivedOk(mode: Mode, t: Target, phase: RequestPhase, k: Conn)
    requires ConnOk(mode, phase, t, k) && Live(phase, k) && !k.stage.Unopened? && k.agentRead < |k.toAgent|
    requires mode.AutonomousStart? ==> phase.Committing?
    ensures var k' := Received(mode, t, phase, k, k.toAgent[k.agentRead]);
            ConnOk(mode, phase, t, k') && AgentWrote(k, k')
  {
    var m := k.toAgent[k.agentRead];
    assert m in k.toAgent;
  }

  lemma {:induction false} FailedOk(mode: Mode, t: Target, phase: RequestPhase, k: Conn, status: Status)
    requires ConnOk(mode, phase, t, k) && Live(phase, k) && status != InjectStarted
    ensures ConnOk(mode, phase, t, FailedConn(k, t, status, phase)) && AgentWrote(k, FailedConn(k, t, status, phase))
  {}

  /** Open a connection, commit it, or cancel it. */
  function Advanced(k: Conn, stage: Stage, ms: seq<SandboxerMessage>): Conn {
    k.(stage := stage, toWorkload := k.toWorkload + ms)
  }

  lemma {:induction false} AdvancedOk(mode: Mode, t: Target, phase: RequestPhase, k: Conn, stage: Stage, ms: seq<SandboxerMessage>)
    requires ConnOk(mode, phase, t, k)
    requires || (k.stage.Unopened? && !phase.Waiting? && stage == AwaitCaps && ms == [])
             || (k.stage.Holding? && phase.Committing? && stage == AwaitStarted && ms == [Commit])
             || (k.stage.Holding? && phase.Cancelling? && stage == Cancelled && (ms == [Cancel] || ms == []))
    ensures ConnOk(mode, phase, t, Advanced(k, stage, ms)) && AgentWrote(k, Advanced(k, stage, ms))
  {}

  predicate WorkloadWrote(k: Conn, k': Conn) {
    && k'.stage == k.stage && k'.toWorkload == k.toWorkload && k'.agentRead == k.agentRead
    && k'.accepted && k.toAgent <= k'.toAgent
  }

  lemma {:induction false} WorkloadReceivedOk(mode: Mode, t: Target, phase: RequestPhase, k: Conn, w: string, wl: Workload)
    requires ConnOk(mode, phase, t, k)
    requires (wl.AwaitFirst? || wl.AwaitCommit?) && ServesOk(mode, t, k, w, wl)
    requires k.workloadRead < |k.toWorkload|
    ensures var (wl', k') := WorkloadReceived(wl, k);
            && ConnOk(mode, phase, t, k') && WorkloadWrote(k, k')
            && (!wl'.Accepting? ==> ServesOk(mode, t, k', w, wl') && wl'.conn == wl.conn)
            && (Started in k'.toAgent <==> wl'.Begun?)
  {}

  // ---- Every step keeps the invariant ----

  lemma {:induction false} AgentConnFrame(cfg: Config, s: State, c: ConnId, k: Conn, d: ConnId)
    requires WellFormed(cfg, s) && c in s.conns && d in s.conns && ConnInv(cfg, s, c) && ConnInv(cfg, s, d)
    requires ConnOk(ModeOf(cfg[c.req]), s.phases[c.req], TargetOf(cfg, c), k)
    requires AgentWrote(s.conns[c], k)
    ensures WellFormed(cfg, SetConn(s, c, k)) && ConnInv(cfg, SetConn(s, c, k), d)
  {}

  lemma {:induction false} AgentWorkloadFrame(cfg: Config, s: State, c: ConnId, k: Conn, w: string)
    requires WellFormed(cfg, s) && c in s.conns && w in s.workloads && WorkloadOk(cfg, s, w)
    requires AgentWrote(s.conns[c], k)
    ensures WellFormed(cfg, SetConn(s, c, k)) && WorkloadOk(cfg, SetConn(s, c, k), w)
  {
    if s.workloads[w].Exited? && s.workloads[w].conn == c {
      var i :| 0 <= i < |s.conns[c].toWorkload| && s.conns[c].toWorkload[i] == Cancel;
      assert k.toWorkload[i] == Cancel;
    }
  }

  /** The agent touches one connection: it may write, it never takes back what was sent. */
  lemma {:induction false} AgentConnStep(cfg: Config, s: State, c: ConnId, k: Conn)
    requires Inv(cfg, s) && c in s.conns
    requires ConnOk(ModeOf(cfg[c.req]), s.phases[c.req], TargetOf(cfg, c), k)
    requires AgentWrote(s.conns[c], k)
    ensures Inv(cfg, SetConn(s, c, k))
  {
    var s' := SetConn(s, c, k);
    forall d | d in s'.conns ensures ConnInv(cfg, s', d) {
      AgentConnFrame(cfg, s, c, k, d);
    }
    forall w | w in s'.workloads ensures WorkloadOk(cfg, s', w) {
      AgentWorkloadFrame(cfg, s, c, k, w);
    }
  }

  lemma {:induction false} WorkloadConnFrame(cfg: Config, s: State, w: string, wl: Workload, c: ConnId, k: Conn, d: ConnId)
    requires WellFormed(cfg, s) && c in s.conns && w in s.workloads && !s.workloads[w].Begun?
    requires d in s.conns && ConnInv(cfg, s, c) && ConnInv(cfg, s, d)
    requires TargetOf(cfg, c).workload == w
    requires ConnOk(ModeOf(cfg[c.req]), s.phases[c.req], TargetOf(cfg, c), k) && WorkloadWrote(s.conns[c], k)
    requires Started in k.toAgent ==> wl.Begun? && wl.conn == c
    ensures var s' := SetConn(s, c, k).(workloads := s.workloads[w := wl]);
            WellFormed(cfg, s') && ConnInv(cfg, s', d)
  {
    KeepsSent(s.conns[c], k);
  }

  /** A workload touches the one connection it serves. */
  lemma {:induction false} WorkloadConnStep(cfg: Config, s: State, w: string, wl: Workload, c: ConnId, k: Conn)
    requires Inv(cfg, s) && c in s.conns && w in s.workloads && !s.workloads[w].Begun?
    requires TargetOf(cfg, c).workload == w
    requires ConnOk(ModeOf(cfg[c.req]), s.phases[c.req], TargetOf(cfg, c), k) && WorkloadWrote(s.conns[c], k)
    requires !wl.Accepting? ==> wl.conn == c && ServesOk(ModeOf(cfg[c.req]), TargetOf(cfg, c), k, w, wl)
    requires Started in k.toAgent ==> wl.Begun?
    ensures Inv(cfg, SetConn(s, c, k).(workloads := s.workloads[w := wl]))
  {
    var s' := SetConn(s, c, k).(workloads := s.workloads[w := wl]);
    forall d | d in s'.conns ensures ConnInv(cfg, s', d) {
      WorkloadConnFrame(cfg, s, w, wl, c, k, d);
    }
    forall v | v in s'.workloads ensures WorkloadOk(cfg, s', v) {
      if v != w { OtherWorkload(cfg, s, w, wl, c, k, v); } else { OwnWorkload(cfg, s, w, wl, c, k); }
    }
  }

  lemma {:induction false} OwnWorkload(cfg: Config, s: State, w: string, wl: Workload, c: ConnId, k: Conn)
    requires WellFormed(cfg, s) && c in s.conns && w in s.workloads
    requires !wl.Accepting? ==> wl.conn == c && ServesOk(ModeOf(cfg[c.req]), TargetOf(cfg, c), k, w, wl)
    ensures var s' := SetConn(s, c, k).(workloads := s.workloads[w := wl]);
            WellFormed(cfg, s') && WorkloadOk(cfg, s', w)
  {}

  lemma {:induction false} OtherWorkload(cfg: Config, s: State, w: string, wl: Workload, c: ConnId, k: Conn, v: string)
    requires WellFormed(cfg, s) && c in s.conns && w in s.workloads && v in s.workloads && v != w
    requires TargetOf(cfg, c).workload == w && WorkloadOk(cfg, s, v)
    ensures var s' := SetConn(s, c, k).(workloads := s.workloads[w := wl]);
            WellFormed(cfg, s') && WorkloadOk(cfg, s', v)
  {}

  lemma {:induction false} KeepsSent(k: Conn, k': Conn)
    requires WorkloadWrote(k, k')
    ensures forall m :: m in k.toAgent ==> m in k'.toAgent
  {
    forall m | m in k.toAgent ensures m in k'.toAgent {
      var i :| 0 <= i < |k.toAgent| && k.toAgent[i] == m;
      assert k'.toAgent[i] == m;
    }
  }

  lemma {:induction false} WorkloadStepInv(cfg: Config, s: State, step: Step)
    requires Inv(cfg, s) && Enabled(cfg, s, step) && (step.Accept? || step.WorkloadReceive?)
    ensures Inv(cfg, Apply(cfg, s, step))
  {
    var w := step.w;
    assert WorkloadOk(cfg, s, w);
    if step.Accept? {
      assert ConnInv(cfg, s, step.c);
      var k := s.conns[step.c];
      WorkloadConnStep(cfg, s, w, AwaitFirst(step.c), step.c, k.(accepted := true, toAgent := k.toAgent + [Capabilities(step.version)]));
    } else {
      var c := s.workloads[w].conn;
      assert ConnInv(cfg, s, c);
      WorkloadReceivedOk(ModeOf(cfg[c.req]), TargetOf(cfg, c), s.phases[c.req], s.conns[c], w, s.workloads[w]);
      var (wl, k) := WorkloadReceived(s.workloads[w], s.conns[c]);
      WorkloadConnStep(cfg, s, w, wl, c, k);
    }
  }

  lemma {:induction false} WorkloadDropInv(cfg: Config, s: State, w: string)
    requires Inv(cfg, s) && Enabled(cfg, s, WorkloadDrop(w))
    ensures Inv(cfg, Apply(cfg, s, WorkloadDrop(w)))
  {
    var s' := Apply(cfg, s, WorkloadDrop(w));
    forall c | c in s'.conns ensures ConnInv(cfg, s', c) {
      DropConn(cfg, s, w, c);
    }
    forall v | v in s'.workloads ensures WorkloadOk(cfg, s', v) {
      assert WorkloadOk(cfg, s, v);
    }
  }

  lemma {:induction false} DropConn(cfg: Config, s: State, w: string, c: ConnId)
    requires Inv(cfg, s) && Enabled(cfg, s, WorkloadDrop(w)) && c in s.conns
    ensures ConnInv(cfg, Apply(cfg, s, WorkloadDrop(w)), c)
  {
    assert ConnInv(cfg, s, c);
  }

  lemma {:induction false} AgentStepInv(cfg: Config, s: State, step: Step)
    requires Inv(cfg, s) && Enabled(cfg, s, step)
    requires step.Fail? || step.Receive?
    ensures Inv(cfg, Apply(cfg, s, step))
  {
    var c := step.c;
    var mode, t, phase, k := ModeOf(cfg[c.req]), TargetOf(cfg, c), s.phases[c.req], s.conns[c];
    assert ConnInv(cfg, s, c);
    assert PhaseOk(cfg[c.req], phase);
    match step
    case Fail(_, status) =>
      FailedOk(mode, t, phase, k, status);
      AgentConnStep(cfg, s, c, FailedConn(k, t, status, phase));
    case Receive(_) =>
      ReceivedOk(mode, t, phase, k);
      AgentConnStep(cfg, s, c, Received(mode, t, phase, k, k.toAgent[k.agentRead]));
  }

  lemma {:induction false} AdvanceStepInv(cfg: Config, s: State, step: Step)
    requires Inv(cfg, s) && Enabled(cfg, s, step)
    requires step.Open? || step.SendCancel? || step.SendCommit?
    ensures Inv(cfg, Apply(cfg, s, step))
  {
    var c := step.c;
    var mode, t, phase, k := ModeOf(cfg[c.req]), TargetOf(cfg, c), s.phases[c.req], s.conns[c];
    assert ConnInv(cfg, s, c);
    var stage := if step.Open? then AwaitCaps else if step.SendCommit? then AwaitStarted else Cancelled;
    var ms := if step.Open? then [] else if step.SendCommit? then [Commit] else if step.written then [Cancel] else [];
    AdvancedOk(mode, t, phase, k, stage, ms);
    AgentConnStep(cfg, s, c, Advanced(k, stage, ms));
    assert step.Open? ==> k.toWorkload + [] == k.toWorkload;
  }

  lemma {:induction false} PhaseStep(cfg: Config, s: State, r: nat, p: RequestPhase)
    requires Inv(cfg, s) && r < |cfg|
    requires PhaseOk(cfg[r], p)
    requires forall i :: 0 <= i < |cfg[r].targets| ==>
      var c := ConnId(r, i);
      ConnOk(ModeOf(cfg[r]), p, TargetOf(cfg, c), s.conns[c]) && DoneOk(ModeOf(cfg[r]), p, s.conns[c])
    ensures Inv(cfg, SetPhase(s, r, p))
  {
    var s' := SetPhase(s, r, p);
    forall c | c in s'.conns ensures ConnInv(cfg, s', c) {
      assert ConnInv(cfg, s, c);
      if c.req == r {
        assert c == ConnId(r, c.idx);
      }
    }
    forall w | w in s'.workloads ensures WorkloadOk(cfg, s', w) {
      assert WorkloadOk(cfg, s, w);
    }
  }

  /** One connection at the barrier. */
  lemma {:induction false} BarrierConn(t: Target, k: Conn, p: RequestPhase)
    requires ConnOk(InjectionMode, Preparing, t, k) && (k.stage.Holding? || k.stage.Failed?)
    requires p.Cancelling? || (p.Committing? && k.stage.Holding?)
    ensures ConnOk(InjectionMode, p, t, k)
    ensures var o := StageOutcome(t.task, k.stage);
            o.Id() == t.task.containerId && (o.Bad? ==> o.result.phase == PreparePhase && o.result.status != InjectStarted)
  {}

  /** One connection when the commit phase ends. */
  lemma {:induction false} CommitDoneConn(mode: Mode, t: Target, phase: RequestPhase, k: Conn, p: RequestPhase)
    requires phase.Committing? && ConnOk(mode, phase, t, k) && !mode.ProbeOnly? && (k.stage.Succeeded? || k.stage.Failed?)
    requires p.Done? && (CommitAllowed(mode, phase) ==> CommitAllowed(mode, p))
    ensures ConnOk(mode, p, t, k)
    ensures k.stage.Succeeded? ==> Started in k.toAgent
    ensures var o := StageOutcome(t.task, k.stage);
            o.Id() == t.task.containerId && (o.Bad? ==> o.result.phase == CommitPhase && o.result.status != InjectStarted)
  {}

  lemma {:induction false} BarrierTarget(cfg: Config, s: State, r: nat, i: nat, p: RequestPhase)
    requires Inv(cfg, s) && Enabled(cfg, s, Barrier(r)) && i < |cfg[r].targets|
    requires p.Cancelling? || (p.Committing? && !s.conns[ConnId(r, i)].stage.Failed?)
    ensures var c := ConnId(r, i);
            && ConnOk(ModeOf(cfg[r]), p, TargetOf(cfg, c), s.conns[c]) && DoneOk(ModeOf(cfg[r]), p, s.conns[c])
            && OutcomeOk(TargetOf(cfg, c).task, s.conns[c].stage, PreparePhase)
  {
    var c := ConnId(r, i);
    assert ConnInv(cfg, s, c);
    BarrierConn(TargetOf(cfg, c), s.conns[c], p);
  }

  predicate OutcomeOk(task: Task, stage: Stage, phase: Phase) {
    var o := StageOutcome(task, stage);
    o.Id() == task.containerId && (o.Bad? ==> o.result.phase == phase && o.result.status != InjectStarted)
  }

  /** The outcomes of a request are outcomes of its tasks. */
  lemma {:induction false} OutcomesOk(cfg: Config, s: State, r: nat, phase: Phase)
    requires WellFormed(cfg, s) && r < |cfg|
    requires forall i :: 0 <= i < |cfg[r].targets| ==>
      OutcomeOk(TargetOf(cfg, ConnId(r, i)).task, s.conns[ConnId(r, i)].stage, phase)
    ensures OutcomesOf(Outcomes(cfg, s, r, |cfg[r].targets|), Tasks(cfg[r].targets), phase)
  {
    var os, tasks := Outcomes(cfg, s, r, |cfg[r].targets|), Tasks(cfg[r].targets);
    forall i | 0 <= i < |tasks|
      ensures os[i].Id() == tasks[i].containerId
      ensures os[i].Bad? ==> os[i].result.phase == phase && os[i].result.status != InjectStarted
    {
      assert OutcomeOk(TargetOf(cfg, ConnId(r, i)).task, s.conns[ConnId(r, i)].stage, phase);
    }
  }

  lemma {:induction false} BarrierInv(cfg: Config, s: State, r: nat)
    requires Inv(cfg, s) && Enabled(cfg, s, Barrier(r))
    ensures Inv(cfg, Apply(cfg, s, Barrier(r)))
  {
    var os := Outcomes(cfg, s, r, |cfg[r].targets|);
    var p := if AllGood(Some(os)) then Committing(Some(os)) else Cancelling(os);
    forall i | 0 <= i < |cfg[r].targets|
      ensures ConnOk(ModeOf(cfg[r]), p, TargetOf(cfg, ConnId(r, i)), s.conns[ConnId(r, i)])
      ensures DoneOk(ModeOf(cfg[r]), p, s.conns[ConnId(r, i)])
      ensures OutcomeOk(TargetOf(cfg, ConnId(r, i)).task, s.conns[ConnId(r, i)].stage, PreparePhase)
    {
      if AllGood(Some(os)) { assert os[i].Good?; }
      BarrierTarget(cfg, s, r, i, p);
    }
    OutcomesOk(cfg, s, r, PreparePhase);
    PhaseStep(cfg, s, r, p);
  }

  lemma {:induction false} CommitDoneTarget(cfg: Config, s: State, r: nat, i: nat, p: RequestPhase)
    requires Inv(cfg, s) && Enabled(cfg, s, CommitDone(r)) && i < |cfg[r].targets|
    requires p.Done? && (CommitAllowed(ModeOf(cfg[r]), s.phases[r]) ==> CommitAllowed(ModeOf(cfg[r]), p))
    requires AllGood(if ModeOf(cfg[r]).InjectionMode? then p.ended.commit else p.ended.auto) ==>
               !s.conns[ConnId(r, i)].stage.Failed?
    ensures var c := ConnId(r, i);
            && ConnOk(ModeOf(cfg[r]), p, TargetOf(cfg, c), s.conns[c]) && DoneOk(ModeOf(cfg[r]), p, s.conns[c])
            && OutcomeOk(TargetOf(cfg, c).task, s.conns[c].stage, CommitPhase)
  {
    var c := ConnId(r, i);
    assert ConnInv(cfg, s, c);
    assert PhaseOk(cfg[r], s.phases[r]);
    CommitDoneConn(ModeOf(cfg[r]), TargetOf(cfg, c), s.phases[r], s.conns[c], p);
  }

  lemma {:induction false} CommitDoneInv(cfg: Config, s: State, r: nat)
    requires Inv(cfg, s) && Enabled(cfg, s, CommitDone(r))
    ensures Inv(cfg, Apply(cfg, s, CommitDone(r)))
  {
    var os := Outcomes(cfg, s, r, |cfg[r].targets|);
    var p := EndedCommit(ModeOf(cfg[r]), s.phases[r], Some(os));
    assert PhaseOk(cfg[r], s.phases[r]);
    forall i | 0 <= i < |cfg[r].targets|
      ensures ConnOk(ModeOf(cfg[r]), p, TargetOf(cfg, ConnId(r, i)), s.conns[ConnId(r, i)])
      ensures DoneOk(ModeOf(cfg[r]), p, s.conns[ConnId(r, i)])
      ensures OutcomeOk(TargetOf(cfg, ConnId(r, i)).task, s.conns[ConnId(r, i)].stage, CommitPhase)
    {
      if AllGood(Some(os)) { assert os[i].Good?; }
      CommitDoneTarget(cfg, s, r, i, p);
    }
    OutcomesOk(cfg, s, r, CommitPhase);
    PhaseStep(cfg, s, r, p);
  }

  /** A request moves on without looking at outcomes: it begins, or it ends early. */
  predicate Moves(mode: Mode, phase: RequestPhase, p: RequestPhase) {
    match phase
    case Waiting => p == if mode.AutonomousStart? then Committing(None) else Preparing
    case Preparing => p == Done(Phases(None, None, None))
    case Cancelling(os) => p == Done(Phases(None, Some(os), None))
    case Committing(_) => p == EndedCommit(mode, phase, None)
    case Done(_) => false
  }

  lemma {:induction false} MovesConn(req: Request, t: Target, phase: RequestPhase, k: Conn, p: RequestPhase)
    requires ConnOk(ModeOf(req), phase, t, k) && PhaseOk(req, phase) && Moves(ModeOf(req), phase, p)
    ensures ConnOk(ModeOf(req), p, t, k) && DoneOk(ModeOf(req), p, k)
  {}

  lemma {:induction false} MovesPhase(req: Request, phase: RequestPhase, p: RequestPhase)
    requires PhaseOk(req, phase) && Moves(ModeOf(req), phase, p)
    ensures PhaseOk(req, p)
  {}

  lemma {:induction false} RequestMoves(cfg: Config, s: State, r: nat, p: RequestPhase)
    requires Inv(cfg, s) && r < |cfg| && Moves(ModeOf(cfg[r]), s.phases[r], p)
    ensures Inv(cfg, SetPhase(s, r, p))
  {
    forall i | 0 <= i < |cfg[r].targets|
      ensures ConnOk(ModeOf(cfg[r]), p, TargetOf(cfg, ConnId(r, i)), s.conns[ConnId(r, i)])
      ensures DoneOk(ModeOf(cfg[r]), p, s.conns[ConnId(r, i)])
    {
      assert ConnInv(cfg, s, ConnId(r, i));
      MovesConn(cfg[r], TargetOf(cfg, ConnId(r, i)), s.phases[r], s.conns[ConnId(r, i)], p);
    }
    MovesPhase(cfg[r], s.phases[r], p);
    PhaseStep(cfg, s, r, p);
  }

  lemma {:induction false} RequestStepInv(cfg: Config, s: State, step: Step)
    requires Inv(cfg, s) && Enabled(cfg, s, step)
    requires step.Begin? || step.PrepareTimeout? || step.CancelDone? || step.CommitTimeout?
    ensures Inv(cfg, Apply(cfg, s, step))
  {
    var r := step.r;
    var p := match step
      case Begin(_) => if ModeOf(cfg[r]).AutonomousStart? then Committing(None) else Preparing
      case PrepareTimeout(_) => Done(Phases(None, None, None))
      case CancelDone(_) => Done(Phases(None, Some(s.phases[r].prepared), None))
      case CommitTimeout(_) => EndedCommit(ModeOf(cfg[r]), s.phases[r], None);
    RequestMoves(cfg, s, r, p);
  }

  lemma {:induction false} StepInv(cfg: Config, s: State, step: Step)
    requires Inv(cfg, s) && Enabled(cfg, s, step)
    ensures Inv(cfg, Apply(cfg, s, step))
  {
    match step
    case Accept(_, _, _) => WorkloadStepInv(cfg, s, step);
    case WorkloadReceive(_) => WorkloadStepInv(cfg, s, step);
    case WorkloadDrop(w) => WorkloadDropInv(cfg, s, w);
    case Barrier(r) => BarrierInv(cfg, s, r);
    case CommitDone(r) => CommitDoneInv(cfg, s, r);
    case Begin(_) => RequestStepInv(cfg, s, step);
    case PrepareTimeout(_) => RequestStepInv(cfg, s, step);
    case CancelDone(_) => RequestStepInv(cfg, s, step);
    case CommitTimeout(_) => RequestStepInv(cfg, s, step);
    case Fail(_, _) => AgentStepInv(cfg, s, step);
    case Receive(_) => AgentStepInv(cfg, s, step);
    case _ => AdvanceStepInv(cfg, s, step);
  }

  lemma {:induction false} NextInv(cfg: Config, s: State, s': State)
    requires Inv(cfg, s) && Next(cfg, s, s')
    ensures Inv(cfg, s')
  {
    var step :| Enabled(cfg, s, step) && s' == Apply(cfg, s, step);
    StepInv(cfg, s, step);
  }

  lemma {:induction false} RunInv(cfg: Config, run: seq<State>)
    requires IsRun(cfg, run)
    ensures Inv(cfg, run[|run| - 1])
  {
    var n := |run| - 1;
    if n == 0 {
      InitInv(cfg, run[0]);
    } else {
      RunInv(cfg, run[..n]);
      assert Next(cfg, run[n - 1], run[n - 1 + 1]);
      NextInv(cfg, run[n - 1], run[n]);
    }
  }

  // ---- What holds in every state of every run ----

  predicate Answered(s: State, c: ConnId, m: WorkloadMessage) {
    c in s.conns && m in s.conns[c].toAgent
  }

  predicate Sent(s: State, c: ConnId, m: SandboxerMessage) {
    c in s.conns && m in s.conns[c].toWorkload
  }

  /** Every target of request `r` has answered `m`. */
  predicate AllAnswered(cfg: Config, s: State, r: nat, m: WorkloadMessage)
    requires r < |cfg|
  {
    forall i :: 0 <= i < |cfg[r].targets| ==> Answered(s, ConnId(r, i), m)
  }

  predicate BegunOn(s: State, w: string, c: ConnId) {
    w in s.workloads && s.workloads[w].Begun? && s.workloads[w].conn == c
  }

  /** In injection mode nothing is committed, started or begun on any connection unless every target
      of the same request answered READY, and no request sends both COMMIT and CANCEL. */
  lemma {:induction false} TwoPhaseSafety(cfg: Config, run: seq<State>, c: ConnId, d: ConnId, w: string)
    requires IsRun(cfg, run) && Valid(cfg, c) && Valid(cfg, d) && d.req == c.req
    requires ModeOf(cfg[c.req]).InjectionMode?
    ensures var s := run[|run| - 1];
            && (Sent(s, c, Commit) || Answered(s, c, Started) || BegunOn(s, w, c) ==> AllAnswered(cfg, s, c.req, Ready))
            && !(Sent(s, c, Commit) && Sent(s, d, Cancel))
  {
    var s := run[|run| - 1];
    RunInv(cfg, run);
    assert ConnInv(cfg, s, c) && ConnInv(cfg, s, d);
    if BegunOn(s, w, c) { BegunHasStarted(cfg, s, w, c); }
    if Sent(s, c, Commit) || Answered(s, c, Started) { CommittedMeansReady(cfg, s, c); }
    NotBoth(s.phases[c.req]);
  }

  lemma {:induction false} BegunHasStarted(cfg: Config, s: State, w: string, c: ConnId)
    requires Inv(cfg, s) && BegunOn(s, w, c)
    ensures Answered(s, c, Started)
  {
    assert WorkloadOk(cfg, s, w);
  }

  lemma {:induction false} CommittedMeansReady(cfg: Config, s: State, c: ConnId)
    requires Inv(cfg, s) && Valid(cfg, c) && ModeOf(cfg[c.req]).InjectionMode?
    requires Sent(s, c, Commit) || Answered(s, c, Started)
    ensures AllAnswered(cfg, s, c.req, Ready)
  {
    assert ConnInv(cfg, s, c);
    assert CommitAllowed(InjectionMode, s.phases[c.req]);
    forall i | 0 <= i < |cfg[c.req].targets| ensures Answered(s, ConnId(c.req, i), Ready) {
      assert ConnInv(cfg, s, ConnId(c.req, i));
    }
  }

  lemma {:induction false} NotBoth(phase: RequestPhase)
    ensures !(CommitAllowed(InjectionMode, phase) && CancelAllowed(phase))
  {}

  /** A workload that has begun was told to, by a connection to its own socket, and holds what it
      was given: the non-empty task it was prepared with, or no task at all in autonomous mode.
      A workload that has exited was cancelled. A probe does neither. */
  lemma {:induction false} BegunWithItsTask(cfg: Config, run: seq<State>, w: string)
    requires IsRun(cfg, run) && w in run[|run| - 1].workloads
    ensures var s := run[|run| - 1];
            var wl := s.workloads[w];
            (wl.Begun? || wl.Exited?) ==>
              && Valid(cfg, wl.conn) && TargetOf(cfg, wl.conn).workload == w
              && cfg[wl.conn.req].Inject?
              && Sent(s, wl.conn, if wl.Begun? then Commit else Cancel)
              && (wl.Begun? ==>
                    if ModeOf(cfg[wl.conn.req]).InjectionMode?
                    then wl.params == TargetOf(cfg, wl.conn).task.payload && wl.params.taskId != ""
                    else wl.params.taskId == "")
  {
    var s := run[|run| - 1];
    RunInv(cfg, run);
    assert WorkloadOk(cfg, s, w);
    if !s.workloads[w].Accepting? { assert ConnInv(cfg, s, s.workloads[w].conn); }
  }

  /** Any number of probes leaves every workload waiting. */
  lemma {:induction false} ProbesChangeNothing(cfg: Config, run: seq<State>, w: string)
    requires IsRun(cfg, run) && w in run[|run| - 1].workloads
    requires forall r :: 0 <= r < |cfg| ==> cfg[r].Probe?
    ensures !run[|run| - 1].workloads[w].Begun? && !run[|run| - 1].workloads[w].Exited?
  {
    BegunWithItsTask(cfg, run, w);
  }

  /** A request that mixes tasks with an empty task id commits nothing. */
  lemma {:induction false} EmptyTaskIdBlocks(cfg: Config, run: seq<State>, c: ConnId, d: ConnId)
    requires IsRun(cfg, run) && Valid(cfg, c) && Valid(cfg, d) && d.req == c.req
    requires ModeOf(cfg[c.req]).InjectionMode? && TargetOf(cfg, d).task.payload.taskId == ""
    ensures !Sent(run[|run| - 1], c, Commit)
  {
    RunInv(cfg, run);
    assert ConnInv(cfg, run[|run| - 1], c) && ConnInv(cfg, run[|run| - 1], d);
  }

  function ReplyOf(cfg: Config, s: State, r: nat): seq<Result>
    requires r < |cfg| && r < |s.phases| && s.phases[r].Done?
  {
    Coordinate(Tasks(cfg[r].targets), s.phases[r].ended).results
  }

  /** The host accepts a reply only if every target's workload has begun on this very request; and a
      reply with a result of the prepare phase means that no target was sent COMMIT. */
  lemma {:induction false} HostVerdictIsTrue(cfg: Config, run: seq<State>, c: ConnId)
    requires IsRun(cfg, run) && Valid(cfg, c) && cfg[c.req].Inject?
    requires |run[|run| - 1].phases| == |cfg| && run[|run| - 1].phases[c.req].Done?
    ensures var s := run[|run| - 1];
            && (HostAccepts(Tasks(cfg[c.req].targets), ReplyOf(cfg, s, c.req)) ==> BegunOn(s, TargetOf(cfg, c).workload, c))
            && (FailedInPrepare(ReplyOf(cfg, s, c.req)) ==> !Sent(s, c, Commit))
  {
    RunInv(cfg, run);
    VerdictInState(cfg, run[|run| - 1], c);
  }

  lemma {:induction false} VerdictInState(cfg: Config, s: State, c: ConnId)
    requires Inv(cfg, s) && Valid(cfg, c) && cfg[c.req].Inject? && s.phases[c.req].Done?
    ensures HostAccepts(Tasks(cfg[c.req].targets), ReplyOf(cfg, s, c.req)) ==> BegunOn(s, TargetOf(cfg, c).workload, c)
    ensures FailedInPrepare(ReplyOf(cfg, s, c.req)) ==> !Sent(s, c, Commit)
  {
    assert ConnInv(cfg, s, c);
    assert PhaseOk(cfg[c.req], s.phases[c.req]);
    VerdictMeans(cfg[c.req], s.phases[c.req], s.conns[c], TargetOf(cfg, c));
  }

  lemma {:induction false} VerdictMeans(req: Request, phase: RequestPhase, k: Conn, t: Target)
    requires req.Inject? && req.targets != [] && phase.Done? && PhaseOk(req, phase)
    requires ConnOk(ModeOf(req), phase, t, k) && DoneOk(ModeOf(req), phase, k)
    ensures var rs := Coordinate(Tasks(req.targets), phase.ended).results;
            && (HostAccepts(Tasks(req.targets), rs) ==> Started in k.toAgent)
            && (FailedInPrepare(rs) ==> Commit !in k.toWorkload)
  {
    var tasks, ph := Tasks(req.targets), phase.ended;
    if ModeOf(req).InjectionMode? {
      HostAcceptsAgentReply(tasks, ph);
      CoordinatorIsTwoPhase(tasks, ph);
    } else {
      HostAcceptsAutonomousReply(tasks, ph);
    }
  }

  /** A prepare phase that times out ends the request silently: no COMMIT and no CANCEL. */
  lemma {:induction false} PrepareTimeoutIsSilent(cfg: Config, run: seq<State>, c: ConnId)
    requires IsRun(cfg, run) && Valid(cfg, c) && ModeOf(cfg[c.req]).InjectionMode?
    requires |run[|run| - 1].phases| == |cfg| && run[|run| - 1].phases[c.req].Done?
    requires run[|run| - 1].phases[c.req].ended.prepare.None?
    ensures !Sent(run[|run| - 1], c, Commit) && !Sent(run[|run| - 1], c, Cancel)
  {
    RunInv(cfg, run);
    assert ConnInv(cfg, run[|run| - 1], c);
  }
}
