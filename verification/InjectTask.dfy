/** The reply of the guest agent to an injection request, and the host's check of that reply.

    `InjectTask` is the agent's coordinator once the per-target exchanges have ended; the
    exchanges themselves are `PrepareOne`, `CommitOne` and `AutonomousOne`, each given the
    outcome of every read and write it makes. `HostCheck` is the host's side.
 */
module InjectTask {
  import opened Wrappers

  const PROTOCOL_VERSION := "1"

  datatype Payload = Payload(taskId: string, env: map<string, string>, context: string)

  datatype Task = Task(containerId: string, socket: string, payload: Payload)

  datatype WorkloadMessage = Capabilities(version: string) | Ready | Started | Reject | CancelAck

  datatype SandboxerMessage = Prepare(payload: Payload) | Commit | Cancel

  datatype Status =
    | InjectStarted
    | TargetNotFound
    | NamespaceError
    | ConnectFailed
    | ProtocolError
    | Rejected
    | TimeoutPrepare
    | TimeoutCommit
    | InternalError

  datatype Phase = PreparePhase | CommitPhase

  datatype Result = Result(containerId: string, status: Status, phase: Phase)

  datatype Connect = Connected | NotFound | BadNamespace | Refused

  /** What one target's exchange returned: the target's id, or a failure result. */
  datatype Outcome = Good(containerId: string) | Bad(result: Result) {
    function Id(): string {
      if Good? then containerId else result.containerId
    }
  }

  function ConnectStatus(c: Connect): Status {
    match c
    case NotFound => TargetNotFound
    case BadNamespace => NamespaceError
    case _ => ConnectFailed
  }

  predicate VersionOk(caps: Option<WorkloadMessage>) {
    caps == Some(Capabilities(PROTOCOL_VERSION))
  }

  /** connect, CAPABILITIES, PREPARE, READY; a read or write that failed is `None` or `false`. */
  function PrepareOne(task: Task, connect: Connect, caps: Option<WorkloadMessage>,
                      wrote: bool, reply: Option<WorkloadMessage>): (o: Outcome)
    ensures o.Id() == task.containerId
    ensures o.Good? <==> connect.Connected? && VersionOk(caps) && wrote && reply == Some(Ready)
    ensures o.Bad? ==> o.result.phase == PreparePhase && o.result.status != InjectStarted
  {
    if !connect.Connected? then Bad(Result(task.containerId, ConnectStatus(connect), PreparePhase))
    else if !VersionOk(caps) || !wrote then Bad(Result(task.containerId, ProtocolError, PreparePhase))
    else
      match reply
      case Some(Ready) => Good(task.containerId)
      case Some(Reject) => Bad(Result(task.containerId, Rejected, PreparePhase))
      case _ => Bad(Result(task.containerId, ProtocolError, PreparePhase))
  }

  /** COMMIT, STARTED on a connection that already answered READY. */
  function CommitOne(containerId: string, wrote: bool, reply: Option<WorkloadMessage>): (o: Outcome)
    ensures o.Id() == containerId
    ensures o.Good? <==> wrote && reply == Some(Started)
    ensures o.Bad? ==> o.result.phase == CommitPhase && o.result.status != InjectStarted
  {
    if wrote && reply == Some(Started) then Good(containerId)
    else Bad(Result(containerId, ProtocolError, CommitPhase))
  }

  /** connect, CAPABILITIES, COMMIT, STARTED: no PREPARE and no READY. */
  function AutonomousOne(task: Task, connect: Connect, caps: Option<WorkloadMessage>,
                         wrote: bool, reply: Option<WorkloadMessage>): (o: Outcome)
    ensures o.Id() == task.containerId
    ensures o.Good? <==> connect.Connected? && VersionOk(caps) && wrote && reply == Some(Started)
    ensures o.Bad? ==> o.result.phase == CommitPhase && o.result.status != InjectStarted
  {
    if !connect.Connected? then Bad(Result(task.containerId, ConnectStatus(connect), CommitPhase))
    else if !VersionOk(caps) then Bad(Result(task.containerId, ProtocolError, CommitPhase))
    else CommitOne(task.containerId, wrote, reply)
  }

  function Ids(tasks: seq<Task>): (ids: seq<string>)
    ensures |ids| == |tasks| && forall i :: 0 <= i < |ids| ==> ids[i] == tasks[i].containerId
  {
    if tasks == [] then [] else Ids(tasks[..|tasks| - 1]) + [tasks[|tasks| - 1].containerId]
  }

  function ResultIds(rs: seq<Result>): (ids: seq<string>)
    ensures |ids| == |rs| && forall i :: 0 <= i < |ids| ==> ids[i] == rs[i].containerId
  {
    if rs == [] then [] else ResultIds(rs[..|rs| - 1]) + [rs[|rs| - 1].containerId]
  }

  predicate AutonomousMode(tasks: seq<Task>) {
    forall i :: 0 <= i < |tasks| ==> tasks[i].payload.taskId == ""
  }

  predicate AllStarted(rs: seq<Result>) {
    forall i :: 0 <= i < |rs| ==> rs[i].status == InjectStarted
  }

  /** The outcomes are those of `tasks`, in order, and failed in phase `phase`. */
  predicate OutcomesOf(outcomes: seq<Outcome>, tasks: seq<Task>, phase: Phase) {
    && |outcomes| == |tasks|
    && forall i :: 0 <= i < |tasks| ==>
         && outcomes[i].Id() == tasks[i].containerId
         && (outcomes[i].Bad? ==> outcomes[i].result.phase == phase && outcomes[i].result.status != InjectStarted)
  }

  function TimedOut(tasks: seq<Task>, status: Status, phase: Phase): (rs: seq<Result>)
    ensures |rs| == |tasks|
    ensures forall i :: 0 <= i < |rs| ==> rs[i] == Result(tasks[i].containerId, status, phase)
  {
    if tasks == [] then []
    else TimedOut(tasks[..|tasks| - 1], status, phase) + [Result(tasks[|tasks| - 1].containerId, status, phase)]
  }

  function FinalOne(o: Outcome): Result {
    if o.Good? then Result(o.containerId, InjectStarted, CommitPhase) else o.result
  }

  function Final(outcomes: seq<Outcome>): (rs: seq<Result>)
    ensures |rs| == |outcomes|
    ensures forall i :: 0 <= i < |rs| ==> rs[i] == FinalOne(outcomes[i])
  {
    if outcomes == [] then [] else Final(outcomes[..|outcomes| - 1]) + [FinalOne(outcomes[|outcomes| - 1])]
  }

  function GoodIds(outcomes: seq<Outcome>): seq<string> {
    if outcomes == [] then []
    else GoodIds(outcomes[..|outcomes| - 1]) +
         (if outcomes[|outcomes| - 1].Good? then [outcomes[|outcomes| - 1].containerId] else [])
  }

  function BadResults(outcomes: seq<Outcome>): seq<Result> {
    if outcomes == [] then []
    else BadResults(outcomes[..|outcomes| - 1]) +
         (if outcomes[|outcomes| - 1].Bad? then [outcomes[|outcomes| - 1].result] else [])
  }

  function CancelledResults(ids: seq<string>): (rs: seq<Result>)
    ensures |rs| == |ids|
    ensures forall i :: 0 <= i < |rs| ==> rs[i] == Result(ids[i], InternalError, PreparePhase)
  {
    if ids == [] then []
    else CancelledResults(ids[..|ids| - 1]) + [Result(ids[|ids| - 1], InternalError, PreparePhase)]
  }

  /** The reply when some target failed to prepare: the failures, then the cancelled peers. */
  function RolledBack(outcomes: seq<Outcome>): seq<Result> {
    BadResults(outcomes) + CancelledResults(GoodIds(outcomes))
  }

  function OutcomeIds(outcomes: seq<Outcome>): (ids: seq<string>)
    ensures |ids| == |outcomes| && forall i :: 0 <= i < |ids| ==> ids[i] == outcomes[i].Id()
  {
    if outcomes == [] then [] else OutcomeIds(outcomes[..|outcomes| - 1]) + [outcomes[|outcomes| - 1].Id()]
  }

  lemma {:induction false} ResultIdsConcat(a: seq<Result>, b: seq<Result>)
    ensures ResultIds(a + b) == ResultIds(a) + ResultIds(b)
  {}

  function BadIds(outcomes: seq<Outcome>): seq<string> {
    if outcomes == [] then []
    else BadIds(outcomes[..|outcomes| - 1]) +
         (if outcomes[|outcomes| - 1].Bad? then [outcomes[|outcomes| - 1].Id()] else [])
  }

  lemma {:induction false} BadIdsOfResults(outcomes: seq<Outcome>)
    ensures ResultIds(BadResults(outcomes)) == BadIds(outcomes)
  {
    if outcomes != [] {
      var front, last := outcomes[..|outcomes| - 1], outcomes[|outcomes| - 1];
      BadIdsOfResults(front);
      if last.Bad? {
        ResultIdsConcat(BadResults(front), [last.result]);
        assert ResultIds([last.result]) == [last.Id()];
      }
    }
  }

  lemma {:induction false} PartitionKeepsIds(outcomes: seq<Outcome>)
    ensures multiset(BadIds(outcomes)) + multiset(GoodIds(outcomes)) == multiset(OutcomeIds(outcomes))
  {
    if outcomes != [] {
      PartitionKeepsIds(outcomes[..|outcomes| - 1]);
    }
  }

  lemma {:induction false} RolledBackKeepsIds(outcomes: seq<Outcome>)
    ensures multiset(ResultIds(RolledBack(outcomes))) == multiset(OutcomeIds(outcomes))
  {
    PartitionKeepsIds(outcomes);
    BadIdsOfResults(outcomes);
    ResultIdsConcat(BadResults(outcomes), CancelledResults(GoodIds(outcomes)));
    assert ResultIds(CancelledResults(GoodIds(outcomes))) == GoodIds(outcomes);
  }

  lemma {:induction false} BadResultsAreOutcomes(outcomes: seq<Outcome>, j: nat)
    requires j < |BadResults(outcomes)|
    ensures Bad(BadResults(outcomes)[j]) in outcomes
  {
    var n := |outcomes| - 1;
    if j < |BadResults(outcomes[..n])| { BadResultsAreOutcomes(outcomes[..n], j); }
  }

  lemma {:induction false} NoBadMeansAllGood(outcomes: seq<Outcome>)
    ensures BadResults(outcomes) == [] <==> (forall i :: 0 <= i < |outcomes| ==> outcomes[i].Good?)
    ensures BadResults(outcomes) == [] ==> GoodIds(outcomes) == OutcomeIds(outcomes)
  {
    if outcomes != [] {
      var front, last := outcomes[..|outcomes| - 1], outcomes[|outcomes| - 1];
      NoBadMeansAllGood(front);
      assert (forall i :: 0 <= i < |outcomes| ==> outcomes[i].Good?) <==>
             (forall i :: 0 <= i < |front| ==> front[i].Good?) && last.Good? by {
        AllButLast(outcomes);
      }
    }
  }

  lemma {:induction false} AllButLast(outcomes: seq<Outcome>)
    requires outcomes != []
    ensures var front := outcomes[..|outcomes| - 1];
            (forall i :: 0 <= i < |outcomes| ==> outcomes[i].Good?) <==>
            (forall i :: 0 <= i < |front| ==> front[i].Good?) && outcomes[|outcomes| - 1].Good?
  {
    var front := outcomes[..|outcomes| - 1];
    forall i | 0 <= i < |front| ensures front[i] == outcomes[i] {}
  }

  /** What one request amounts to: the reply, and the targets that were sent COMMIT and CANCEL
      after a PREPARE. */
  datatype Verdict = Verdict(results: seq<Result>, committed: seq<string>, cancelled: seq<string>)

  /** How the phases of one request ended; `None` is a phase that hit its global timeout. */
  datatype Phases = Phases(auto: Option<seq<Outcome>>, prepare: Option<seq<Outcome>>, commit: Option<seq<Outcome>>)

  predicate PhasesOf(tasks: seq<Task>, ph: Phases) {
    && (ph.auto.Some? ==> OutcomesOf(ph.auto.value, tasks, CommitPhase))
    && (ph.prepare.Some? ==> OutcomesOf(ph.prepare.value, tasks, PreparePhase))
    && (ph.commit.Some? ==> OutcomesOf(ph.commit.value, tasks, CommitPhase))
  }

  predicate AllGood(o: Option<seq<Outcome>>) {
    o.Some? && forall i :: 0 <= i < |o.value| ==> o.value[i].Good?
  }

  function FinalOrTimeout(tasks: seq<Task>, outcomes: Option<seq<Outcome>>): seq<Result> {
    if outcomes.None? then TimedOut(tasks, TimeoutCommit, CommitPhase) else Final(outcomes.value)
  }

  function Coordinate(tasks: seq<Task>, ph: Phases): Verdict {
    if AutonomousMode(tasks) then Verdict(FinalOrTimeout(tasks, ph.auto), [], [])
    else if ph.prepare.None? then Verdict(TimedOut(tasks, TimeoutPrepare, PreparePhase), [], [])
    else if BadResults(ph.prepare.value) != [] then
      Verdict(RolledBack(ph.prepare.value), [], GoodIds(ph.prepare.value))
    else Verdict(FinalOrTimeout(tasks, ph.commit), GoodIds(ph.prepare.value), [])
  }

  method Partition(outcomes: seq<Outcome>) returns (ready: seq<string>, failed: seq<Result>)
    ensures ready == GoodIds(outcomes) && failed == BadResults(outcomes)
  {
    ready, failed := [], [];
    for k := 0 to |outcomes|
      invariant ready == GoodIds(outcomes[..k]) && failed == BadResults(outcomes[..k])
    {
      assert outcomes[..k + 1][..k] == outcomes[..k];
      match outcomes[k]
      case Good(id) => ready := ready + [id];
      case Bad(r) => failed := failed + [r];
    }
    assert outcomes[..|outcomes|] == outcomes;
  }

  /** The coordinator, branch by branch. */
  method InjectTask(tasks: seq<Task>, ph: Phases) returns (v: Verdict)
    requires PhasesOf(tasks, ph)
    ensures v == Coordinate(tasks, ph)
  {
    if AutonomousMode(tasks) {
      return Verdict(FinalOrTimeout(tasks, ph.auto), [], []);
    }
    if ph.prepare.None? {
      return Verdict(TimedOut(tasks, TimeoutPrepare, PreparePhase), [], []);
    }
    var ready, failed := Partition(ph.prepare.value);
    if failed != [] {
      return Verdict(failed + CancelledResults(ready), [], ready);
    }
    return Verdict(FinalOrTimeout(tasks, ph.commit), ready, []);
  }

  lemma {:induction false} FinalOrTimeoutIds(tasks: seq<Task>, o: Option<seq<Outcome>>)
    requires o.Some? ==> OutcomesOf(o.value, tasks, CommitPhase)
    ensures ResultIds(FinalOrTimeout(tasks, o)) == Ids(tasks)
    ensures tasks != [] ==> (AllStarted(FinalOrTimeout(tasks, o)) <==> AllGood(o))
    ensures forall i :: 0 <= i < |tasks| ==> FinalOrTimeout(tasks, o)[i].phase == CommitPhase
  {
    if o.None? {
      TimedOutIds(tasks, TimeoutCommit, CommitPhase);
    } else {
      FinalIds(tasks, o.value);
      FinalStarted(tasks, o.value);
    }
  }

  lemma {:induction false} TimedOutIds(tasks: seq<Task>, status: Status, phase: Phase)
    ensures ResultIds(TimedOut(tasks, status, phase)) == Ids(tasks)
    ensures tasks != [] && status != InjectStarted ==> !AllStarted(TimedOut(tasks, status, phase))
  {
    var rs := TimedOut(tasks, status, phase);
    if tasks != [] { assert rs[0].status == status; }
  }

  lemma {:induction false} FinalIds(tasks: seq<Task>, outcomes: seq<Outcome>)
    requires OutcomesOf(outcomes, tasks, CommitPhase)
    ensures ResultIds(Final(outcomes)) == Ids(tasks)
  {
    var a, b := ResultIds(Final(outcomes)), Ids(tasks);
    forall i | 0 <= i < |tasks| ensures a[i] == b[i] {
      assert Final(outcomes)[i] == FinalOne(outcomes[i]) && outcomes[i].Id() == tasks[i].containerId;
    }
  }

  lemma {:induction false} FinalStarted(tasks: seq<Task>, outcomes: seq<Outcome>)
    requires OutcomesOf(outcomes, tasks, CommitPhase)
    ensures AllStarted(Final(outcomes)) <==> AllGood(Some(outcomes))
    ensures forall i :: 0 <= i < |tasks| ==> Final(outcomes)[i].phase == CommitPhase
  {
    var rs := Final(outcomes);
    forall i | 0 <= i < |tasks|
      ensures rs[i].phase == CommitPhase && (rs[i].status == InjectStarted <==> outcomes[i].Good?)
    {
      assert rs[i] == FinalOne(outcomes[i]);
    }
  }

  /** In every branch the reply names each target as often as the request did. */
  lemma {:induction false} ReplyKeepsIds(tasks: seq<Task>, ph: Phases)
    requires PhasesOf(tasks, ph)
    ensures multiset(ResultIds(Coordinate(tasks, ph).results)) == multiset(Ids(tasks))
    ensures |Coordinate(tasks, ph).results| == |tasks|
  {
    if AutonomousMode(tasks) {
      FinalOrTimeoutIds(tasks, ph.auto);
    } else if ph.prepare.None? {
      assert ResultIds(TimedOut(tasks, TimeoutPrepare, PreparePhase)) == Ids(tasks);
    } else if BadResults(ph.prepare.value) != [] {
      assert OutcomeIds(ph.prepare.value) == Ids(tasks);
      RolledBackKeepsIds(ph.prepare.value);
    } else {
      FinalOrTimeoutIds(tasks, ph.commit);
    }
    SameMultisetSameLength(ResultIds(Coordinate(tasks, ph).results), Ids(tasks));
  }

  /** In injection mode COMMIT goes to every target or to none, only when every target answered
      READY; CANCEL goes to exactly the READY targets if some target failed to prepare, and to nobody
      if all were READY or the prepare phase timed out; the reply is all STARTED exactly when both phases
      ended with every target good; a result of the prepare phase means that no COMMIT was sent. */
  lemma {:induction false} CoordinatorIsTwoPhase(tasks: seq<Task>, ph: Phases)
    requires PhasesOf(tasks, ph) && !AutonomousMode(tasks)
    ensures var v := Coordinate(tasks, ph);
            && (v.committed != [] <==> AllGood(ph.prepare))
            && (v.committed == [] || v.committed == Ids(tasks))
            && v.cancelled == (if ph.prepare.Some? && !AllGood(ph.prepare) then GoodIds(ph.prepare.value) else [])
            && (AllStarted(v.results) <==> AllGood(ph.prepare) && AllGood(ph.commit))
            && (FailedInPrepare(v.results) <==> v.committed == [])
  {
    assert tasks != [];
    if ph.prepare.None? {
      PrepareTimedOut(tasks);
    } else if BadResults(ph.prepare.value) != [] {
      PrepareFailed(tasks, ph.prepare.value);
    } else {
      PrepareWorked(tasks, ph.prepare.value);
      CommitReply(tasks, ph.commit);
    }
  }

  lemma {:induction false} CommitReply(tasks: seq<Task>, o: Option<seq<Outcome>>)
    requires tasks != [] && (o.Some? ==> OutcomesOf(o.value, tasks, CommitPhase))
    ensures AllStarted(FinalOrTimeout(tasks, o)) <==> AllGood(o)
    ensures !FailedInPrepare(FinalOrTimeout(tasks, o))
  {
    FinalOrTimeoutIds(tasks, o);
  }

  predicate FailedInPrepare(rs: seq<Result>) {
    exists i :: 0 <= i < |rs| && rs[i].phase == PreparePhase
  }

  lemma {:induction false} PrepareTimedOut(tasks: seq<Task>)
    requires tasks != []
    ensures var rs := TimedOut(tasks, TimeoutPrepare, PreparePhase); !AllStarted(rs) && FailedInPrepare(rs)
  {
    var rs := TimedOut(tasks, TimeoutPrepare, PreparePhase);
    assert rs[0].status != InjectStarted && rs[0].phase == PreparePhase;
  }

  lemma {:induction false} PrepareFailed(tasks: seq<Task>, outcomes: seq<Outcome>)
    requires OutcomesOf(outcomes, tasks, PreparePhase) && BadResults(outcomes) != []
    ensures !AllGood(Some(outcomes)) && !AllStarted(RolledBack(outcomes)) && FailedInPrepare(RolledBack(outcomes))
  {
    NoBadMeansAllGood(outcomes);
    BadResultsAreOutcomes(outcomes, 0);
    var i :| 0 <= i < |outcomes| && outcomes[i] == Bad(BadResults(outcomes)[0]);
    assert outcomes[i].result.phase == PreparePhase && outcomes[i].result.status != InjectStarted;
    assert RolledBack(outcomes)[0] == outcomes[i].result;
  }

  lemma {:induction false} PrepareWorked(tasks: seq<Task>, outcomes: seq<Outcome>)
    requires OutcomesOf(outcomes, tasks, PreparePhase) && BadResults(outcomes) == []
    ensures AllGood(Some(outcomes)) && GoodIds(outcomes) == Ids(tasks)
  {
    NoBadMeansAllGood(outcomes);
    var a, b := OutcomeIds(outcomes), Ids(tasks);
    forall i | 0 <= i < |tasks| ensures a[i] == b[i] {}
  }

  lemma {:induction false} SameMultisetSameLength<T>(a: seq<T>, b: seq<T>)
    requires multiset(a) == multiset(b)
    ensures |a| == |b|
  {
    assert |multiset(a)| == |a|;
    assert |multiset(b)| == |b|;
  }

  /** The host's three guards: one result per task, the same set of ids, no result but STARTED. */
  method HostCheck(tasks: seq<Task>, results: seq<Result>) returns (ok: bool)
    ensures ok == HostAccepts(tasks, results)
  {
    if |results| != |tasks| { return false; }
    var requested := set i | 0 <= i < |tasks| :: tasks[i].containerId;
    var replied := set i | 0 <= i < |results| :: results[i].containerId;
    assert requested == set x | x in Ids(tasks) by { IdSet(Ids(tasks)); }
    assert replied == set x | x in ResultIds(results) by { IdSet(ResultIds(results)); }
    if replied != requested { return false; }
    var errors := 0;
    for k := 0 to |results|
      invariant errors == 0 <==> forall i :: 0 <= i < k ==> results[i].status == InjectStarted
      invariant errors >= 0
    {
      if results[k].status != InjectStarted { errors := errors + 1; }
    }
    return errors == 0;
  }

  lemma {:induction false} IdSet(ids: seq<string>)
    ensures (set i | 0 <= i < |ids| :: ids[i]) == (set x | x in ids)
  {}

  predicate SameIdSet(a: seq<string>, b: seq<string>) {
    (set x | x in a) == (set x | x in b)
  }

  predicate HostAccepts(tasks: seq<Task>, results: seq<Result>) {
    |results| == |tasks| && SameIdSet(ResultIds(results), Ids(tasks)) && AllStarted(results)
  }

  /** The count and id-set guards pass on every reply the agent can build, so the host's verdict on
      an injection is the agent's: accepted exactly when every target answered READY and STARTED. */
  lemma {:induction false} HostAcceptsAgentReply(tasks: seq<Task>, ph: Phases)
    requires PhasesOf(tasks, ph) && !AutonomousMode(tasks)
    ensures HostAccepts(tasks, Coordinate(tasks, ph).results) <==> AllGood(ph.prepare) && AllGood(ph.commit)
  {
    ReplyKeepsIds(tasks, ph);
    CoordinatorIsTwoPhase(tasks, ph);
    SameMultisetSameSet(ResultIds(Coordinate(tasks, ph).results), Ids(tasks));
  }

  /** The autonomous reply is accepted exactly when every target answered STARTED. */
  lemma {:induction false} HostAcceptsAutonomousReply(tasks: seq<Task>, ph: Phases)
    requires PhasesOf(tasks, ph) && AutonomousMode(tasks) && tasks != []
    ensures HostAccepts(tasks, Coordinate(tasks, ph).results) <==> AllGood(ph.auto)
    ensures forall i :: 0 <= i < |Coordinate(tasks, ph).results| ==> Coordinate(tasks, ph).results[i].phase == CommitPhase
  {
    FinalOrTimeoutIds(tasks, ph.auto);
    ReplyKeepsIds(tasks, ph);
  }

  lemma {:induction false} SameMultisetSameSet(a: seq<string>, b: seq<string>)
    requires multiset(a) == multiset(b)
    ensures SameIdSet(a, b)
  {
    forall x ensures x in a <==> x in b {
      assert x in a <==> x in multiset(a);
      assert x in b <==> x in multiset(b);
    }
  }

  predicate Distinct(ids: seq<string>) {
    forall i, j :: 0 <= i < j < |ids| ==> ids[i] != ids[j]
  }

  /** `b` passes the count and id-set guards against the requested ids `a`. */
  predicate Guarded(a: seq<string>, b: seq<string>) {
    |a| == |b| && SameIdSet(a, b)
  }

  lemma {:induction false} DistinctSize(ids: seq<string>)
    ensures |set x | x in ids| <= |ids|
    ensures |set x | x in ids| == |ids| <==> Distinct(ids)
  {
    if ids != [] {
      var front, last := ids[..|ids| - 1], ids[|ids| - 1];
      DistinctSize(front);
      assert (set x | x in ids) == (set x | x in front) + {last};
      if last in front {
        assert (set x | x in ids) == (set x | x in front);
      } else {
        assert Distinct(ids) <==> Distinct(front);
      }
    }
  }

  lemma {:induction false} DistinctMultiset(ids: seq<string>)
    requires Distinct(ids)
    ensures multiset(ids) == multiset(set x | x in ids)
  {
    if ids != [] {
      var front, last := ids[..|ids| - 1], ids[|ids| - 1];
      assert ids == front + [last];
      DistinctMultiset(front);
      assert last !in front;
      assert (set x | x in ids) == (set x | x in front) + {last};
    }
  }

  lemma {:induction false} ConstantMultiset(ids: seq<string>, id: string)
    requires forall i :: 0 <= i < |ids| ==> ids[i] == id
    ensures multiset(ids) == multiset{}[id := |ids|]
  {
    if ids != [] {
      assert ids == ids[..|ids| - 1] + [id];
      ConstantMultiset(ids[..|ids| - 1], id);
    }
  }

  predicate AllEqual(ids: seq<string>) {
    forall i, j :: 0 <= i < j < |ids| ==> ids[i] == ids[j]
  }

  /** The guards force the replied ids to be the requested ones, one for one, exactly when the
      requested ids are pairwise different (or all the same): that is when the host's check
      proves that every single task, and not only every name, was started. */
  lemma {:induction false} GuardsForceMatch(a: seq<string>)
    ensures (forall b :: Guarded(a, b) ==> multiset(b) == multiset(a)) <==> Distinct(a) || AllEqual(a)
  {
    if Distinct(a) || AllEqual(a) {
      forall b | Guarded(a, b) ensures multiset(b) == multiset(a) {
        GuardsForceMatchOne(a, b);
      }
    } else {
      var b := GuardsMiss(a);
    }
  }

  lemma {:induction false} GuardsForceMatchOne(a: seq<string>, b: seq<string>)
    requires Guarded(a, b) && (Distinct(a) || AllEqual(a))
    ensures multiset(b) == multiset(a)
  {
    if Distinct(a) {
      DistinctSize(a);
      DistinctSize(b);
      DistinctMultiset(a);
      DistinctMultiset(b);
    } else if a != [] {
      forall i | 0 <= i < |b| ensures b[i] == a[0] {
        var m := Find(a, b, i);
        assert a[0] == a[m];
      }
      ConstantMultiset(a, a[0]);
      ConstantMultiset(b, a[0]);
    }
  }

  lemma {:induction false} Find(a: seq<string>, b: seq<string>, i: nat) returns (m: nat)
    requires SameIdSet(a, b) && i < |b|
    ensures m < |a| && a[m] == b[i]
  {
    var sa, sb := set x | x in a, set x | x in b;
    assert b[i] in sb;
    assert b[i] in sa;
    m :| m < |a| && a[m] == b[i];
  }

  /** A repeated id together with another id lets a wrong reply through. */
  lemma {:induction false} GuardsMiss(a: seq<string>) returns (b: seq<string>)
    requires !Distinct(a) && !AllEqual(a)
    ensures Guarded(a, b) && multiset(b) != multiset(a)
  {
    var i, j :| 0 <= i < j < |a| && a[i] == a[j];
    var k :| 0 <= k < |a| && a[k] != a[i];
    b := a[j := a[k]];
    forall x ensures x in a <==> x in b {
      if x in a {
        var m :| 0 <= m < |a| && a[m] == x;
        assert b[if m == j then i else m] == x;
      }
      if x in b {
        var m :| 0 <= m < |b| && b[m] == x;
        assert a[if m == j then k else m] == x;
      }
    }
    assert multiset(b)[a[k]] == multiset(a)[a[k]] + 1;
  }

  /** When the host accepts a reply to tasks with different ids, every task has a result of its own,
      and that result is STARTED. */
  lemma {:induction false} AcceptedMeansEachStarted(tasks: seq<Task>, results: seq<Result>, i: nat) returns (j: nat)
    requires HostAccepts(tasks, results) && Distinct(Ids(tasks)) && i < |tasks|
    ensures j < |results| && results[j] == Result(tasks[i].containerId, InjectStarted, results[j].phase)
    ensures forall k :: 0 <= k < |results| && k != j ==> results[k].containerId != tasks[i].containerId
  {
    var a, b := Ids(tasks), ResultIds(results);
    DistinctSize(a);
    DistinctSize(b);
    j := Find(b, a, i);
    assert Distinct(b) && b[j] == a[i];
    forall k | 0 <= k < |results| && k != j ensures b[k] != b[j] {}
  }
}
