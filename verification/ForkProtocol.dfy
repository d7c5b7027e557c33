/** The sandboxer and the sandbox parent process talking over two pipes. Every step is one system
    call that moves some bytes, or the death of the parent; steps of the two processes interleave
    freely. One call is made at a time.
 */
module ForkProtocol {
  import opened Basics
  import opened Wrappers
  import opened ForkRequest

  datatype Fork = Fork(call: Call, pid: int)
  datatype Outcome = Pid(pid: int) | Failed
  datatype Client = Idle | Sending(idx: nat) | Receiving(reply: Bytes)
  datatype Parent = Loading(request: Bytes) | Replying(sent: nat) | Dead

  /** `calls` are the calls begun, `forks` what the parent forked and `outcomes` what the calls
      returned, each in order; `req` and `resp` are the bytes in the two pipes. */
  datatype State = State(calls: seq<Call>, forks: seq<Fork>, outcomes: seq<Outcome>,
                         client: Client, parent: Parent, req: Bytes, resp: Bytes)

  datatype Step =
    | Begin(call: Call)
    | Send(n: nat)
    | SendFails
    | Receive(n: nat)
    | ReceiveEnd
    | Load(n: nat, pid: int)
    | Reply(n: nat)
    | Die
    | Interrupted

  const INITIAL := State([], [], [], Idle, Loading([]), [], [])

  predicate Enabled(s: State, step: Step) {
    match step
    case Begin(call) => s.client.Idle? && Accepted(call)
    case Send(n) => s.client.Sending? && !s.parent.Dead? && 0 < n <= REQUEST - s.client.idx && s.calls != []
    case SendFails => s.client.Sending? && s.parent.Dead?
    case Receive(n) => s.client.Receiving? && 0 < n <= |s.resp| && |s.client.reply| + n <= REPLY
    case ReceiveEnd => s.client.Receiving? && s.parent.Dead? && s.resp == [] && |s.client.reply| <= REPLY
    case Load(n, pid) => s.parent.Loading? && 0 < n <= |s.req| && |s.parent.request| + n <= REQUEST && I32(pid)
    case Reply(n) => s.parent.Replying? && 0 < n <= REPLY - s.parent.sent && s.forks != [] && I32(Last(s.forks).pid)
    case Die => !s.parent.Dead?
    case Interrupted => true
  }

  /** The parent has written its reply up to some byte; after the last it is ready for the next request. */
  function Replied(s: State, resp: Bytes, to: nat): State {
    s.(resp := resp, parent := if to == REPLY then Loading([]) else Replying(to))
  }

  function Last<T>(s: seq<T>): T
    requires s != []
  {
    s[|s| - 1]
  }

  function Apply(s: State, step: Step): State
    requires Enabled(s, step)
    requires s.calls == [] || Accepted(Last(s.calls))
  {
    match step
    case Begin(call) => s.(calls := s.calls + [call], client := Sending(0))
    case Send(n) =>
      var to := s.client.idx + n;
      s.(req := s.req + Encode(Last(s.calls))[s.client.idx..to],
         client := if to == REQUEST then Receiving([]) else Sending(to))
    case SendFails => s.(outcomes := s.outcomes + [Failed], client := Idle)
    case Receive(n) => Received(s.(resp := s.resp[n..]), s.client.reply + s.resp[..n])
    case ReceiveEnd => s.(outcomes := s.outcomes + [Pid(FromLe32(Pad(s.client.reply, REPLY)))], client := Idle)
    case Load(n, pid) => Loaded(s.(req := s.req[n..]), s.parent.request + s.req[..n], pid)
    case Reply(n) =>
      var to := s.parent.sent + n;
      Replied(s, s.resp + Le32(Last(s.forks).pid)[s.parent.sent..to], to)
    case Die => s.(parent := Dead, req := [])
    case Interrupted => s
  }

  function Received(s: State, got: Bytes): State
    requires |got| <= REPLY
  {
    if |got| == REPLY then s.(outcomes := s.outcomes + [Pid(FromLe32(got))], client := Idle)
    else s.(client := Receiving(got))
  }

  function Loaded(s: State, got: Bytes, pid: int): State
    requires |got| <= REQUEST
  {
    if |got| == REQUEST then s.(forks := s.forks + [Fork(Decode(got), pid)], parent := Replying(0))
    else s.(parent := Loading(got))
  }

  // What every reachable state satisfies.

  predicate Counts(s: State) {
    && |s.calls| == |s.outcomes| + (if s.client.Idle? then 0 else 1)
    && |s.forks| <= |s.calls|
    && (!s.parent.Dead? ==> |s.outcomes| <= |s.forks|)
  }

  predicate CallsAccepted(calls: seq<Call>) {
    forall k :: 0 <= k < |calls| ==> Accepted(calls[k])
  }

  /** The k-th fork is for the k-th call, as the request format carries it. */
  predicate ForksMatch(calls: seq<Call>, forks: seq<Fork>)
    requires |forks| <= |calls| && CallsAccepted(calls)
  {
    forall k :: 0 <= k < |forks| ==> I32(forks[k].pid) && forks[k].call == Decode(Encode(calls[k]))
  }

  /** The pid as a call reads it when only the first `n` bytes of the reply were written. */
  function Cut(pid: int, n: nat): int
    requires I32(pid) && n <= REPLY
  {
    FromLe32(Pad(Le32(pid)[..n], REPLY))
  }

  /** What the k-th call may have returned. */
  predicate Answer(o: Outcome, k: nat, forks: seq<Fork>, dead: bool)
    requires forall i :: 0 <= i < |forks| ==> I32(forks[i].pid)
  {
    || (k < |forks| && o == Pid(forks[k].pid))
    || (dead && k >= |forks| && (o == Failed || o == Pid(0)))
    || (dead && k == |forks| - 1 && IsCut(o, forks[k].pid))
  }

  predicate IsCut(o: Outcome, pid: int)
    requires I32(pid)
  {
    exists n :: 0 <= n < REPLY && o == Pid(Cut(pid, n))
  }

  predicate Answers(s: State)
    requires forall i :: 0 <= i < |s.forks| ==> I32(s.forks[i].pid)
  {
    forall k :: 0 <= k < |s.outcomes| ==> Answer(s.outcomes[k], k, s.forks, s.parent.Dead?)
  }

  /** Where the bytes of the call in progress are. */
  predicate Flow(s: State)
    requires Counts(s) && CallsAccepted(s.calls) && ForksMatch(s.calls, s.forks)
  {
    match s.client
    case Idle =>
      s.resp == [] && (s.parent.Dead? || (s.parent == Loading([]) && s.req == []))
    case Sending(i) =>
      && s.resp == [] && i < REQUEST && |s.forks| < |s.calls|
      && (s.parent.Dead? ||
          (s.parent.Loading? && |s.parent.request| < REQUEST && s.parent.request + s.req == Encode(Last(s.calls))[..i]))
    case Receiving(c) =>
      && |c| < REPLY
      && if |s.forks| < |s.calls| then
           && c + s.resp == []
           && (s.parent.Dead? ||
               (s.parent.Loading? && |s.parent.request| < REQUEST && s.parent.request + s.req == Encode(Last(s.calls))))
         else
           && c + s.resp <= Le32(Last(s.forks).pid)
           && (s.parent.Dead? || (s.req == [] && match s.parent
                                                 case Replying(j) => j < REPLY && |c + s.resp| == j
                                                 case Loading(g) => g == [] && |c + s.resp| == REPLY))
  }

  predicate Inv(s: State) {
    && Counts(s)
    && CallsAccepted(s.calls)
    && ForksMatch(s.calls, s.forks)
    && Answers(s)
    && Flow(s)
  }

  /** A step that moves bytes and ends nothing keeps the books. */
  lemma {:induction false} SameBooks(s: State, t: State)
    requires Inv(s) && t.calls == s.calls && t.forks == s.forks && t.outcomes == s.outcomes
    requires t.client.Idle? == s.client.Idle? && t.parent.Dead? == s.parent.Dead?
    ensures Counts(t) && CallsAccepted(t.calls) && ForksMatch(t.calls, t.forks) && Answers(t)
  {}

  lemma {:induction false} BeginInv(s: State, step: Step)
    requires Inv(s) && step.Begin? && Enabled(s, step)
    ensures Inv(Apply(s, step))
  {
    assert Encode(step.call)[..0] == [];
  }

  lemma {:induction false} SendInv(s: State, step: Step)
    requires Inv(s) && step.Send? && Enabled(s, step)
    ensures Inv(Apply(s, step))
  {
    var e, i, to := Encode(Last(s.calls)), s.client.idx, s.client.idx + step.n;
    Cat(s.parent.request, s.req, e[i..to]);
    assert e[..i] + e[i..to] == e[..to];
    assert to == REQUEST ==> e[..to] == e;
  }

  lemma {:induction false} FailInv(s: State, step: Step)
    requires Inv(s) && step.SendFails? && Enabled(s, step)
    ensures Inv(Apply(s, step))
  {}

  lemma {:induction false} ReceiveInv(s: State, step: Step)
    requires Inv(s) && step.Receive? && Enabled(s, step)
    ensures Inv(Apply(s, step))
  {
    var got, rest := s.client.reply + s.resp[..step.n], s.resp[step.n..];
    assert got + rest == s.client.reply + s.resp;
    ReceivingFlow(s);
    if |got| == REPLY {
      ReceivedAll(s, got, rest);
    } else {
      ReceivedPart(s, got, rest);
    }
  }

  lemma {:induction false} ReceivingFlow(s: State)
    requires Inv(s) && s.client.Receiving? && s.resp != []
    ensures |s.forks| == |s.calls| > 0 && I32(Last(s.forks).pid) && s.client.reply + s.resp <= Le32(Last(s.forks).pid)
  {
    assert s.client.reply + s.resp != [];
  }

  lemma {:induction false} ReceivedPart(s: State, got: Bytes, rest: Bytes)
    requires Inv(s) && s.client.Receiving? && |s.forks| == |s.calls| && |got| < REPLY
    requires got + rest == s.client.reply + s.resp
    ensures Inv(s.(resp := rest, client := Receiving(got)))
  {
    SameBooks(s, s.(resp := rest, client := Receiving(got)));
  }

  lemma {:induction false} ReceivedAll(s: State, got: Bytes, rest: Bytes)
    requires Inv(s) && s.client.Receiving? && |s.forks| == |s.calls| > 0 && |got| == REPLY
    requires got + rest == s.client.reply + s.resp && I32(Last(s.forks).pid) && s.client.reply + s.resp <= Le32(Last(s.forks).pid)
    ensures Inv(s.(resp := rest, outcomes := s.outcomes + [Pid(FromLe32(got))], client := Idle))
  {
    var pid := Last(s.forks).pid;
    assert got == Le32(pid) && rest == [];
    PidRoundTrip(pid);
    assert Answer(Pid(pid), |s.outcomes|, s.forks, s.parent.Dead?);
  }

  lemma {:induction false} EmptyReply(c: Bytes)
    requires c == []
    ensures FromLe32(Pad(c, REPLY)) == 0
  {
    var p := Pad(c, REPLY);
    assert p[0] == 0 && p[1] == 0 && p[2] == 0 && p[3] == 0;
  }

  lemma {:induction false} PartialReply(c: Bytes, pid: int)
    requires I32(pid) && |c| < REPLY && c <= Le32(pid)
    ensures FromLe32(Pad(c, REPLY)) == Cut(pid, |c|)
  {
    assert c == Le32(pid)[..|c|];
  }

  lemma {:induction false} EndInv(s: State, step: Step)
    requires Inv(s) && step.ReceiveEnd? && Enabled(s, step)
    ensures Inv(Apply(s, step))
  {
    var c, k := s.client.reply, |s.outcomes|;
    var o := Pid(FromLe32(Pad(c, REPLY)));
    assert c + s.resp == c;
    assert Answer(o, k, s.forks, true) by {
      if |s.forks| < |s.calls| { EmptyReply(c); } else { PartialReply(c, s.forks[k].pid); }
    }
    AnswerAppended(s, o);
  }

  lemma {:induction false} AnswerAppended(s: State, o: Outcome)
    requires Inv(s) && s.parent.Dead? && s.client.Receiving? && s.resp == []
    requires Answer(o, |s.outcomes|, s.forks, true)
    ensures Inv(s.(outcomes := s.outcomes + [o], client := Idle))
  {
    AnswersAppended(s.outcomes, s.forks, o);
  }

  lemma {:induction false} AnswersAppended(outcomes: seq<Outcome>, forks: seq<Fork>, o: Outcome)
    requires forall i :: 0 <= i < |forks| ==> I32(forks[i].pid)
    requires forall k :: 0 <= k < |outcomes| ==> Answer(outcomes[k], k, forks, true)
    requires Answer(o, |outcomes|, forks, true)
    ensures forall k :: 0 <= k <= |outcomes| ==> Answer((outcomes + [o])[k], k, forks, true)
  {
    forall k | 0 <= k <= |outcomes| ensures Answer((outcomes + [o])[k], k, forks, true) {
      if k < |outcomes| { assert Answer(outcomes[k], k, forks, true); }
    }
  }

  lemma {:induction false} LoadInv(s: State, step: Step)
    requires Inv(s) && step.Load? && Enabled(s, step)
    ensures Inv(Apply(s, step))
  {
    var g, n := s.parent.request, step.n;
    var got, rest := g + s.req[..n], s.req[n..];
    assert got + rest == g + s.req;
    LoadedSome(s, got, rest, step.pid);
  }

  lemma {:induction false} LoadedSome(s: State, got: Bytes, rest: Bytes, pid: int)
    requires Inv(s) && s.parent.Loading? && s.req != [] && I32(pid)
    requires got + rest == s.parent.request + s.req && |got| <= REQUEST
    ensures Inv(Loaded(s.(req := rest), got, pid))
  {
    assert |s.forks| == |s.calls| - 1 && !s.client.Idle?;
    if |got| == REQUEST {
      assert s.client.Receiving? && rest == [];
      assert got == Encode(Last(s.calls));
      ForkedInv(s, got, pid);
    }
  }

  lemma {:induction false} ForkedInv(s: State, got: Bytes, pid: int)
    requires Inv(s) && s.parent.Loading? && I32(pid) && s.client.Receiving? && |s.forks| < |s.calls|
    requires got == Encode(Last(s.calls))
    ensures Inv(s.(forks := s.forks + [Fork(Decode(got), pid)], parent := Replying(0), req := []))
  {
    var f := Fork(Decode(got), pid);
    var t := s.(forks := s.forks + [f], parent := Replying(0), req := []);
    MatchOneMore(s.calls, s.forks, f);
    assert Answers(t) by { AnswersStay(s, f); }
    assert s.client.reply + s.resp == [] <= Le32(pid);
  }

  lemma {:induction false} MatchOneMore(calls: seq<Call>, forks: seq<Fork>, f: Fork)
    requires |forks| < |calls| && CallsAccepted(calls) && ForksMatch(calls, forks)
    requires I32(f.pid) && f.call == Decode(Encode(calls[|forks|]))
    ensures ForksMatch(calls, forks + [f])
  {
    forall k | 0 <= k <= |forks|
      ensures I32((forks + [f])[k].pid) && (forks + [f])[k].call == Decode(Encode(calls[k]))
    {
      if k < |forks| { assert (forks + [f])[k] == forks[k]; }
    }
  }

  lemma {:induction false} AnswersStay(s: State, f: Fork)
    requires Inv(s) && !s.parent.Dead? && I32(f.pid)
    ensures forall k :: 0 <= k < |s.forks + [f]| ==> I32((s.forks + [f])[k].pid)
    ensures forall k :: 0 <= k < |s.outcomes| ==> Answer(s.outcomes[k], k, s.forks + [f], false)
  {
    forall k | 0 <= k < |s.outcomes| ensures Answer(s.outcomes[k], k, s.forks + [f], false) {
      assert Answer(s.outcomes[k], k, s.forks, false);
    }
  }

  lemma {:induction false} ReplyInv(s: State, step: Step)
    requires Inv(s) && step.Reply? && Enabled(s, step)
    ensures Inv(Apply(s, step))
  {
    var le, to := Le32(Last(s.forks).pid), s.parent.sent + step.n;
    RepliedInv(s, Apply(s, step), s.resp + le[s.parent.sent..to], le, to);
  }

  lemma {:induction false} RepliedInv(s: State, s': State, resp: Bytes, le: Bytes, to: nat)
    requires Inv(s) && s.parent.Replying? && s.parent.sent <= to <= REPLY
    requires s.forks != [] && I32(Last(s.forks).pid) && le == Le32(Last(s.forks).pid)
    requires resp == s.resp + le[s.parent.sent..to] && s' == Replied(s, resp, to)
    ensures Inv(s')
  {
    ReplyingFlow(s);
    RepliedMore(s.client.reply, s.resp, resp, le, s.parent.sent, to);
    RepliedSome(s, resp, to);
  }

  lemma {:induction false} ReplyingFlow(s: State)
    requires Inv(s) && s.parent.Replying?
    ensures s.client.Receiving? && s.forks != [] && I32(Last(s.forks).pid) && s.parent.sent < REPLY
    ensures s.client.reply + s.resp <= Le32(Last(s.forks).pid) && |s.client.reply + s.resp| == s.parent.sent
  {}

  lemma {:induction false} RepliedMore(c: Bytes, resp: Bytes, more: Bytes, le: Bytes, j: nat, to: nat)
    requires c + resp <= le && |c + resp| == j <= to <= |le| && more == resp + le[j..to]
    ensures c + more == le[..to]
  {
    Cat(c, resp, le[j..to]);
    assert c + resp == le[..j];
  }

  lemma {:induction false} RepliedSome(s: State, resp: Bytes, to: nat)
    requires Inv(s) && s.parent.Replying? && s.client.Receiving? && to <= REPLY
    requires s.client.reply + resp == Le32(Last(s.forks).pid)[..to]
    ensures Inv(Replied(s, resp, to))
  {
    SameBooks(s, Replied(s, resp, to));
  }

  lemma {:induction false} DieInv(s: State, step: Step)
    requires Inv(s) && step.Die? && Enabled(s, step)
    ensures Inv(Apply(s, step))
  {}

  lemma {:induction false} StepInv(s: State, step: Step)
    requires Inv(s) && Enabled(s, step)
    ensures Inv(Apply(s, step))
  {
    match step
    case Begin(_) => BeginInv(s, step);
    case Send(_) => SendInv(s, step);
    case SendFails => FailInv(s, step);
    case Receive(_) => ReceiveInv(s, step);
    case ReceiveEnd => EndInv(s, step);
    case Load(_, _) => LoadInv(s, step);
    case Reply(_) => ReplyInv(s, step);
    case Die => DieInv(s, step);
    case Interrupted =>
  }

  /** `run` is a run: each of its states follows from the one before by one step. */
  ghost predicate IsRun(run: seq<State>) {
    && run != [] && run[0] == INITIAL
    && forall i, j :: 0 <= i && j == i + 1 < |run| ==> Follows(run[i], run[j])
  }

  ghost predicate Follows(s: State, t: State) {
    exists step :: Enabled(s, step) && (s.calls == [] || Accepted(Last(s.calls))) && t == Apply(s, step)
  }

  lemma {:induction false} RunInv(run: seq<State>, i: nat)
    requires IsRun(run) && i < |run|
    ensures Inv(run[i])
  {
    if i > 0 {
      RunInv(run, i - 1);
      var s, t := run[i - 1], run[i];
      assert Follows(s, t);
      var step :| Enabled(s, step) && t == Apply(s, step);
      StepInv(s, step);
    }
  }

  /** While the parent lives, the k-th fork is for the k-th call and the k-th call returns its pid,
      whatever the calls ask for; a proper call is forked exactly as asked. */
  lemma {:induction false} CallsAreAnswered(run: seq<State>, i: nat, k: nat)
    requires IsRun(run) && i < |run| && !run[i].parent.Dead? && k < |run[i].outcomes|
    ensures var s := run[i];
            k < |s.forks| && k < |s.calls| && s.outcomes[k] == Pid(s.forks[k].pid)
            && (s.forks[k].call == s.calls[k] <==> Proper(s.calls[k]))
  {
    RunInv(run, i);
    var s := run[i];
    assert Answer(s.outcomes[k], k, s.forks, false);
    RoundTrip(s.calls[k]);
  }

  /** Between calls both pipes are at a request boundary. */
  lemma {:induction false} IdlePipesAreEmpty(run: seq<State>, i: nat)
    requires IsRun(run) && i < |run| && run[i].client.Idle? && !run[i].parent.Dead?
    ensures var s := run[i]; s.req == [] && s.resp == [] && s.parent == Loading([])
    ensures |run[i].calls| == |run[i].forks| == |run[i].outcomes|
  {
    RunInv(run, i);
  }

  /** A call that returns a pid other than its fork's does so only because the parent died, and then
      the pid it returns is zero or the fork's pid with its high bytes missing. */
  lemma {:induction false} WrongPidMeansDeath(run: seq<State>, i: nat, k: nat)
    requires IsRun(run) && i < |run| && k < |run[i].outcomes| && run[i].outcomes[k].Pid?
    requires k >= |run[i].forks| || run[i].outcomes[k].pid != run[i].forks[k].pid
    ensures var s := run[i];
            s.parent.Dead? && k + 1 >= |s.forks|
            && (k >= |s.forks| ==> s.outcomes[k] == Pid(0))
            && (k < |s.forks| ==> I32(s.forks[k].pid)
                                  && IsCut(s.outcomes[k], s.forks[k].pid))
  {
    RunInv(run, i);
    assert Answer(run[i].outcomes[k], k, run[i].forks, run[i].parent.Dead?);
  }

  /** Such a call exists: the parent dies once the request is written, and the call returns pid 0. */
  lemma {:induction false} DeadParentAnswersZero(c: Call) returns (run: seq<State>)
    requires Accepted(c)
    ensures IsRun(run) && Last(run).forks == [] && Last(run).outcomes == [Pid(0)]
  {
    var s1 := Apply(INITIAL, Begin(c));
    assert s1.calls == [c];
    var s2 := Apply(s1, Send(REQUEST));
    var s3 := Apply(s2, Die);
    EmptyReply([]);
    var s4 := Apply(s3, ReceiveEnd);
    assert Follows(INITIAL, s1) && Follows(s1, s2) && Follows(s2, s3) && Follows(s3, s4);
    run := [INITIAL, s1, s2, s3, s4];
  }

  const TOTAL := 2 * REQUEST + 2 * REPLY

  /** How many bytes of the call in progress have been written or read while the parent lives. */
  function Moved(s: State): int {
    (match s.client
     case Idle => 0
     case Sending(i) => i
     case Receiving(c) => REQUEST + |c|) +
    match s.parent
    case Loading(g) => if |s.forks| == |s.calls| then REQUEST + REPLY else |g|
    case Replying(j) => REQUEST + j
    case Dead => 0
  }

  /** A bound on the steps still to come before the next call. */
  function Remaining(s: State): int {
    if s.client.Idle? then if s.parent.Dead? then 0 else 1
    else if s.parent.Dead? then 1 + |s.resp|
    else TOTAL + 3 - Moved(s)
  }

  lemma {:induction false} RemainingBound(s: State)
    requires Inv(s)
    ensures 0 <= Remaining(s) <= TOTAL + 3
    ensures !s.client.Idle? && !s.parent.Dead? ==> Remaining(s) > 1 + |s.resp|
  {
    if s.client.Receiving? { assert |s.client.reply + s.resp| == |s.client.reply| + |s.resp|; }
  }

  lemma {:induction false} ClientMoves(s: State, step: Step)
    requires Inv(s) && Enabled(s, step) && (step.Send? || step.SendFails? || step.Receive? || step.ReceiveEnd?)
    ensures Remaining(Apply(s, step)) < Remaining(s)
  {
    RemainingBound(s);
    if step.Receive? { assert |s.client.reply + s.resp[..step.n]| == |s.client.reply| + step.n; }
  }

  lemma {:induction false} ParentMoves(s: State, step: Step)
    requires Inv(s) && Enabled(s, step) && (step.Load? || step.Reply? || step.Die?)
    ensures Remaining(Apply(s, step)) < Remaining(s)
  {
    RemainingBound(s);
    if step.Load? { assert |s.parent.request + s.req[..step.n]| == |s.parent.request| + step.n; }
  }

  /** Every step but a signal brings the end of the call nearer, the death of the parent included. */
  lemma {:induction false} Progress(s: State, step: Step)
    requires Inv(s) && Enabled(s, step) && !step.Begin? && !step.Interrupted?
    ensures 0 <= Remaining(Apply(s, step)) < Remaining(s) <= TOTAL + 3
  {
    StepInv(s, step);
    RemainingBound(s);
    RemainingBound(Apply(s, step));
    if step.Load? || step.Reply? || step.Die? { ParentMoves(s, step); } else { ClientMoves(s, step); }
  }

  /** How many steps from the i-th to the j-th state of a run change anything. */
  function Changes(run: seq<State>, i: nat, j: nat): nat
    requires i <= j < |run|
    decreases j
  {
    if i == j then 0 else Changes(run, i, j - 1) + if run[j] == run[j - 1] then 0 else 1
  }

  lemma {:induction false} OneChange(s: State, t: State)
    requires Inv(s) && Follows(s, t)
    ensures |s.calls| <= |t.calls|
    ensures |s.calls| == |t.calls| ==> Remaining(t) + (if s == t then 0 else 1) <= Remaining(s)
  {
    var step :| Enabled(s, step) && t == Apply(s, step);
    if !step.Begin? && !step.Interrupted? { Progress(s, step); }
  }

  predicate Descends(s: State, t: State) {
    && 0 <= Remaining(t) && |s.calls| <= |t.calls|
    && (|s.calls| == |t.calls| ==> Remaining(t) + (if s == t then 0 else 1) <= Remaining(s))
  }

  lemma {:induction false} PairDescends(s: State, t: State)
    requires Inv(s) && Follows(s, t)
    ensures Descends(s, t)
  {
    var step :| Enabled(s, step) && t == Apply(s, step);
    StepInv(s, step);
    RemainingBound(t);
    OneChange(s, t);
  }

  lemma {:induction false} RunPair(run: seq<State>, i: nat, k: nat)
    requires IsRun(run) && i + 1 == k < |run|
    ensures Inv(run[i]) && Follows(run[i], run[k])
  {
    RunInv(run, i);
  }

  lemma {:induction false} RunDescends(run: seq<State>, k: nat)
    requires IsRun(run) && 0 < k < |run|
    ensures Descends(run[k - 1], run[k])
  {
    var s, t := run[k - 1], run[k];
    assert Inv(s) && Follows(s, t) by { RunPair(run, k - 1, k); }
    PairDescends(s, t);
  }

  lemma {:induction false} Adds(run: seq<State>, i: nat, j: nat)
    requires i <= j < |run| && forall k :: i < k <= j ==> Descends(run[k - 1], run[k])
    ensures |run[i].calls| <= |run[j].calls|
    ensures |run[i].calls| == |run[j].calls| ==> Changes(run, i, j) + Remaining(run[j]) <= Remaining(run[i])
    decreases j
  {
    if i < j {
      Adds(run, i, j - 1);
      assert Descends(run[j - 1], run[j]);
    }
  }

  /** In every run, and whether the parent lives or dies, at most 1035 steps that are not interrupted
      are made from any state before the next call begins. */
  lemma {:induction false} CallsAreBounded(run: seq<State>, i: nat, j: nat)
    requires IsRun(run) && i <= j < |run| && |run[j].calls| == |run[i].calls|
    ensures Changes(run, i, j) <= Remaining(run[i]) <= 1035
  {
    RunInv(run, i);
    RunInv(run, j);
    RemainingBound(run[i]);
    RemainingBound(run[j]);
    forall k | i < k <= j ensures Descends(run[k - 1], run[k]) { RunDescends(run, k); }
    Adds(run, i, j);
  }

  /** A call in progress can always move on. */
  lemma {:induction false} NeverStuck(s: State) returns (step: Step)
    requires Inv(s) && !s.client.Idle?
    ensures !step.Interrupted? && !step.Die? && !step.Begin? && Enabled(s, step)
  {
    if s.parent.Dead? {
      if s.client.Sending? { return SendFails; }
      if s.resp == [] { return ReceiveEnd; }
      return Receive(1);
    }
    if s.client.Sending? { return Send(1); }
    if s.resp != [] { return Receive(1); }
    if s.parent.Replying? { return Reply(1); }
    assert s.client.reply + s.resp == s.client.reply;
    return Load(1, 0);
  }
}
