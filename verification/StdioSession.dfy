/**
 The persistent stdio session (stdio_client.py): submitters and closers on their own threads and one worker share a
 queue, three flags and the futures. Each step below is one access to that shared state; a run is any sequence of steps.
 */
module StdioSession {
  import opened Values

  datatype Item = Request(id: nat) | StopMark

  /** Where a call of `submit` is: before each of its three checks, before its put, or past it. */
  datatype Submitter = AtReady | AtError | AtStop | AtPut | Awaiting | Refused

  /** Where a call of `close` is, past its own check of the stop flag. */
  datatype Closer = AtSet | AtMark | Closed

  /** Where the worker is. A failure is recorded, announced, and then empties the queue. */
  datatype Worker = Starting | AtLoop | AtGet | InHand(id: nat) | AtExit | Failing | Draining | Gone

  datatype Session = Session(
    queue: seq<Item>,
    ready: bool,
    stop: bool,
    failed: bool,
    worker: Worker,
    submitters: map<nat, Submitter>,
    closers: map<nat, Closer>,
    accepted: seq<nat>,
    resolved: seq<nat>,
    servedLate: nat,
    drainedLate: nat)

  const INITIAL := Session([], false, false, false, Starting, map[], map[], [], [], 0, 0)

  datatype Step =
    | SubmitCalled(id: nat)
    | ReadySeen(id: nat)
    | ReadyTimedOut(id: nat)
    | ErrorChecked(id: nat)
    | StopChecked(id: nat)
    | RequestPut(id: nat)
    | CloseCalled(c: nat)
    | StopSet(c: nat)
    | MarkPut(c: nat)
    | SessionReady
    | LoopChecked
    | ItemTaken
    | ResultSet
    | SessionLeft
    | SessionFailed
    | FailureAnnounced
    | PendingTaken

  predicate At(s: Session, id: nat, stage: Submitter) {
    id in s.submitters && s.submitters[id] == stage
  }

  /** Whether a step can be taken: its thread is at that point, and a blocking access does not block. */
  predicate Enabled(s: Session, step: Step) {
    match step
    case SubmitCalled(id) => id !in s.submitters
    case ReadySeen(id) => At(s, id, AtReady) && s.ready
    case ReadyTimedOut(id) => At(s, id, AtReady)
    case ErrorChecked(id) => At(s, id, AtError)
    case StopChecked(id) => At(s, id, AtStop)
    case RequestPut(id) => At(s, id, AtPut)
    case CloseCalled(c) => c !in s.closers
    case StopSet(c) => c in s.closers && s.closers[c] == AtSet
    case MarkPut(c) => c in s.closers && s.closers[c] == AtMark
    case SessionReady => s.worker == Starting
    case LoopChecked => s.worker == AtLoop
    case ItemTaken => s.worker == AtGet && s.queue != []
    case ResultSet => s.worker.InHand?
    case SessionLeft => s.worker == AtExit
    case SessionFailed => s.worker == Starting || s.worker == AtLoop || s.worker == AtGet || s.worker == AtExit
    case FailureAnnounced => s.worker == Failing
    case PendingTaken => s.worker == Draining
  }

  function Moved(s: Session, id: nat, stage: Submitter): Session {
    s.(submitters := s.submitters[id := stage])
  }

  function Take(s: Session, step: Step): Session
    requires Enabled(s, step)
  {
    match step
    case SubmitCalled(id) => Moved(s, id, AtReady)
    case ReadySeen(id) => Moved(s, id, AtError)
    case ReadyTimedOut(id) => Moved(s, id, Refused)
    case ErrorChecked(id) => Moved(s, id, if s.failed then Refused else AtStop)
    case StopChecked(id) => Moved(s, id, if s.stop then Refused else AtPut)
    case RequestPut(id) => Moved(s, id, Awaiting).(queue := s.queue + [Request(id)], accepted := s.accepted + [id])
    case CloseCalled(c) => s.(closers := s.closers[c := if s.stop then Closed else AtSet])
    case StopSet(c) => s.(closers := s.closers[c := AtMark], stop := true)
    case MarkPut(c) => s.(closers := s.closers[c := Closed], queue := s.queue + [StopMark])
    case SessionReady => s.(ready := true, worker := AtLoop)
    case LoopChecked => s.(worker := if s.stop then AtExit else AtGet)
    case ItemTaken =>
      s.(queue := s.queue[1..], worker := if s.queue[0].StopMark? then AtExit else InHand(s.queue[0].id))
    case ResultSet =>
      s.(resolved := s.resolved + [s.worker.id], worker := AtLoop,
         servedLate := s.servedLate + (if s.stop then 1 else 0))
    case SessionLeft => s.(worker := Gone)
    case SessionFailed => s.(failed := true, worker := Failing)
    case FailureAnnounced => s.(ready := true, worker := Draining)
    case PendingTaken =>
      if s.queue == [] then s.(worker := Gone)
      else if s.queue[0].StopMark? then s.(queue := s.queue[1..])
      else s.(queue := s.queue[1..], resolved := s.resolved + [s.queue[0].id],
              drainedLate := s.drainedLate + (if s.stop then 1 else 0))
  }

  /** Any interleaving: the threads' steps in any order, a step that is not enabled being no step. */
  function After(s: Session, steps: seq<Step>): Session {
    if steps == [] then s
    else
      var before := After(s, steps[..|steps| - 1]);
      if Enabled(before, steps[|steps| - 1]) then Take(before, steps[|steps| - 1]) else before
  }

  // ----- invariants -----

  function Requests(queue: seq<Item>): seq<nat> {
    if queue == [] then []
    else Requests(queue[..|queue| - 1]) + (if queue[|queue| - 1].Request? then [queue[|queue| - 1].id] else [])
  }

  lemma {:induction false} RequestsFirst(queue: seq<Item>)
    requires queue != []
    ensures Requests(queue) == (if queue[0].Request? then [queue[0].id] else []) + Requests(queue[1..])
  {
    if |queue| > 1 {
      var front := queue[..|queue| - 1];
      RequestsFirst(front);
      assert front[1..] == queue[1..][..|queue[1..]| - 1];
    } else {
      assert queue[..0] == [] && queue[1..] == [];
    }
  }

  function Hand(w: Worker): seq<nat> {
    if w.InHand? then [w.id] else []
  }

  predicate NoRepeats(s: seq<nat>) {
    forall i, j :: 0 <= i < j < |s| ==> s[i] != s[j]
  }

  /**
   Accepted requests, in the order they were put, are the resolved ones, then the one in hand, then the queued ones.
   */
  predicate Partitioned(s: Session) {
    s.accepted == s.resolved + Hand(s.worker) + Requests(s.queue)
  }

  /** Each submit puts at most once, and awaits only what it put. */
  predicate Tracked(s: Session) {
    && NoRepeats(s.accepted)
    && (forall i :: 0 <= i < |s.accepted| ==> At(s, s.accepted[i], Awaiting))
  }

  /** Once stop is set the worker serves at most the request it is already bound to take; only a failure drains. */
  predicate StopsSoon(s: Session) {
    && (!s.stop ==> s.servedLate == 0 && s.drainedLate == 0)
    && s.servedLate + (if s.worker.InHand? || s.worker == AtGet then 1 else 0) <= 1
    && (s.drainedLate > 0 ==> s.failed)
    && (s.failed <==> s.worker == Failing || s.worker == Draining || (s.worker == Gone && s.failed))
  }

  predicate Inv(s: Session) {
    Partitioned(s) && Tracked(s) && StopsSoon(s)
  }

  lemma RequestsLast(queue: seq<Item>, item: Item)
    ensures Requests(queue + [item]) == Requests(queue) + (if item.Request? then [item.id] else [])
  {
    assert (queue + [item])[..|queue|] == queue;
  }

  lemma TakeKeepsPartition(s: Session, step: Step)
    requires Partitioned(s) && Enabled(s, step)
    ensures Partitioned(Take(s, step))
  {
    hide Requests;
    if step.RequestPut? || step.MarkPut? || step.ItemTaken? || step.ResultSet? || step.PendingTaken? {
      QueueStepKeepsPartition(s, step);
    }
  }

  lemma QueueStepKeepsPartition(s: Session, step: Step)
    requires Partitioned(s) && Enabled(s, step)
    requires step.RequestPut? || step.MarkPut? || step.ItemTaken? || step.ResultSet? || step.PendingTaken?
    ensures Partitioned(Take(s, step))
  {
    hide Requests;
    match step
    case RequestPut(id) => RequestsLast(s.queue, Request(id));
    case MarkPut(c) => RequestsLast(s.queue, StopMark);
    case ItemTaken => TakenKeepsPartition(s);
    case ResultSet =>
    case PendingTaken => DrainedKeepsPartition(s);
  }

  lemma TakenKeepsPartition(s: Session)
    requires Partitioned(s) && Enabled(s, ItemTaken)
    ensures Partitioned(Take(s, ItemTaken))
  {
    hide Requests;
    RequestsFirst(s.queue);
    assert Hand(s.worker) == [];
  }

  lemma DrainedKeepsPartition(s: Session)
    requires Partitioned(s) && Enabled(s, PendingTaken)
    ensures Partitioned(Take(s, PendingTaken))
  {
    hide Requests;
    assert Hand(s.worker) == [];
    if s.queue != [] { RequestsFirst(s.queue); }
  }

  lemma TakeKeepsTracked(s: Session, step: Step)
    requires Tracked(s) && Enabled(s, step)
    ensures Tracked(Take(s, step))
  {
    var t := Take(s, step);
    if step.RequestPut? {
      forall i | 0 <= i < |s.accepted| ensures s.accepted[i] != step.id { assert At(s, s.accepted[i], Awaiting); }
    } else {
      assert t.accepted == s.accepted;
      forall i | 0 <= i < |s.accepted| ensures At(t, s.accepted[i], Awaiting) { assert At(s, s.accepted[i], Awaiting); }
    }
  }

  lemma TakeKeepsInv(s: Session, step: Step)
    requires Inv(s) && Enabled(s, step)
    ensures Inv(Take(s, step))
  {
    hide Requests;
    TakeKeepsPartition(s, step);
    TakeKeepsTracked(s, step);
  }

  lemma {:induction false} EveryRunKeepsInv(steps: seq<Step>)
    ensures Inv(After(INITIAL, steps))
  {
    if steps == [] {
    } else {
      hide Take, Inv;
      EveryRunKeepsInv(steps[..|steps| - 1]);
      var before := After(INITIAL, steps[..|steps| - 1]);
      if Enabled(before, steps[|steps| - 1]) { TakeKeepsInv(before, steps[|steps| - 1]); }
    }
  }

  /**
   In every interleaving: futures are resolved in the order their requests were put, each at most once; every accepted
   request is resolved, in the worker's hand or queued, and in one of these only; and after stop is set the worker
   serves at most one more.
   */
  lemma EveryRunIsFair(steps: seq<Step>)
    ensures var s := After(INITIAL, steps);
            && s.resolved <= s.accepted && NoRepeats(s.resolved) && NoRepeats(s.accepted)
            && s.accepted == s.resolved + Hand(s.worker) + Requests(s.queue)
            && s.servedLate <= 1
            && (!s.failed ==> s.drainedLate == 0)
  {
    hide After, Requests;
    EveryRunKeepsInv(steps);
    var s := After(INITIAL, steps);
    assert s.accepted[..|s.resolved|] == s.resolved;
    forall i, j | 0 <= i < j < |s.resolved| ensures s.resolved[i] != s.resolved[j] {
      assert s.resolved[i] == s.accepted[i] && s.resolved[j] == s.accepted[j];
    }
  }

  // ----- what stopping does not promise -----

  lemma NoSteps(s: Session)
    ensures After(s, []) == s
  {
  }

  lemma OneStep(s: Session, step: Step)
    requires Enabled(s, step)
    ensures After(s, [step]) == Take(s, step)
  {
    hide Take, Enabled;
    assert [step][..0] == [];
  }

  function Drain(n: nat): seq<Step> {
    if n == 0 then [] else [PendingTaken] + Drain(n - 1)
  }

  /** One drained item. */
  lemma DrainedOne(s: Session)
    requires s.worker == Draining && s.queue != []
    ensures var t := Take(s, PendingTaken);
            && t.worker == Draining && t.queue == s.queue[1..] && t.stop == s.stop && t.servedLate == s.servedLate
            && t.resolved + Requests(t.queue) == s.resolved + Requests(s.queue)
            && (if s.stop then t.drainedLate + |Requests(t.queue)| == s.drainedLate + |Requests(s.queue)|
                else t.drainedLate == s.drainedLate)
  {
    hide Requests;
    RequestsFirst(s.queue);
  }

  /** A worker that failed resolves everything still queued, in order. */
  lemma {:induction false} FailureDrains(s: Session)
    requires s.worker == Draining
    ensures var t := After(s, Drain(|s.queue|));
            && t.resolved == s.resolved + Requests(s.queue) && t.queue == [] && t.servedLate == s.servedLate
            && t.drainedLate == s.drainedLate + (if s.stop then |Requests(s.queue)| else 0)
    decreases |s.queue|
  {
    if s.queue == [] {
      NoSteps(s);
    } else {
      hide After, Requests, Take;
      var t := Take(s, PendingTaken);
      DrainedOne(s);
      FailureDrains(t);
      AfterThen(s, [PendingTaken], Drain(|t.queue|));
      OneStep(s, PendingTaken);
    }
  }

  lemma {:induction false} AfterThen(s: Session, first: seq<Step>, second: seq<Step>)
    ensures After(s, first + second) == After(After(s, first), second)
  {
    hide Take, Enabled;
    if second == [] {
      assert first + second == first;
    } else {
      assert (first + second)[..|first + second| - 1] == first + second[..|second| - 1];
      AfterThen(s, first, second[..|second| - 1]);
    }
  }

  /** One more step of a run. */
  lemma Extended(steps: seq<Step>, step: Step) returns (longer: seq<Step>)
    requires Enabled(After(INITIAL, steps), step)
    ensures After(INITIAL, longer) == Take(After(INITIAL, steps), step)
  {
    hide Take, Enabled;
    longer := steps + [step];
    assert longer[..|longer| - 1] == steps;
  }

  /** A submit that meets no failure and no stop puts its request. */
  lemma Submitted(steps: seq<Step>, id: nat) returns (longer: seq<Step>)
    requires var s := After(INITIAL, steps); s.ready && !s.failed && !s.stop && id !in s.submitters
    ensures var s := After(INITIAL, steps);
            After(INITIAL, longer) ==
              s.(submitters := s.submitters[id := Awaiting], queue := s.queue + [Request(id)],
                 accepted := s.accepted + [id])
  {
    hide After;
    var s := After(INITIAL, steps);
    longer := Extended(steps, SubmitCalled(id));
    longer := Extended(longer, ReadySeen(id));
    longer := Extended(longer, ErrorChecked(id));
    longer := Extended(longer, StopChecked(id));
    longer := Extended(longer, RequestPut(id));
    assert s.submitters[id := AtReady][id := AtError][id := AtStop][id := AtPut][id := Awaiting] ==
           s.submitters[id := Awaiting];
  }

  /** A run whose close overtakes two queued requests, and whose worker then fails on its way out. */
  lemma TwoQueuedAtFailure() returns (steps: seq<Step>)
    ensures var s := After(INITIAL, steps);
            && s.worker == Draining && s.stop && s.queue == [Request(0), Request(1)]
            && s.resolved == [] && s.servedLate == 0 && s.drainedLate == 0
  {
    hide After, Requests;
    NoSteps(INITIAL);
    steps := [];
    steps := Extended(steps, SessionReady);
    steps := Submitted(steps, 0);
    steps := Submitted(steps, 1);
    steps := Extended(steps, CloseCalled(0));
    steps := Extended(steps, StopSet(0));
    steps := Extended(steps, LoopChecked);
    steps := Extended(steps, SessionFailed);
    steps := Extended(steps, FailureAnnounced);
  }

  /**
   So stopping does not bound what is resolved: here two queued requests are, after stop, by a failure on the way out.
   */
  lemma FailureAfterStopDrainsTwo()
    ensures exists steps :: var s := After(INITIAL, steps); s.servedLate == 0 && s.drainedLate == 2 && |s.resolved| == 2
  {
    hide After, Requests, Take, Enabled;
    var steps := TwoQueuedAtFailure();
    var s := After(INITIAL, steps);
    TwoRequests();
    FailureDrains(s);
    var drain := Drain(|s.queue|);
    AfterThen(INITIAL, steps, drain);
    var t := After(INITIAL, steps + drain);
    assert t.servedLate == 0 && t.drainedLate == 2 && |t.resolved| == 2;
  }

  lemma TwoRequests()
    ensures Requests([Request(0), Request(1)]) == [0, 1]
  {
    assert [Request(0), Request(1)][..1] == [Request(0)] && [Request(0)][..0] == [];
  }

  lemma GoneStep(s: Session, step: Step)
    requires s.worker == Gone && Enabled(s, step)
    ensures var t := Take(s, step); t.worker == Gone && t.resolved == s.resolved && s.queue <= t.queue
  {
  }

  /** A worker that is gone resolves nothing more: what is still queued, or put later, waits for its own timeout. */
  lemma {:induction false} GoneResolvesNothing(s: Session, steps: seq<Step>)
    requires s.worker == Gone
    ensures After(s, steps).worker == Gone && After(s, steps).resolved == s.resolved && s.queue <= After(s, steps).queue
  {
    if steps == [] {
      NoSteps(s);
    } else {
      hide Take, Enabled;
      GoneResolvesNothing(s, steps[..|steps| - 1]);
      var before := After(s, steps[..|steps| - 1]);
      if Enabled(before, steps[|steps| - 1]) { GoneStep(before, steps[|steps| - 1]); }
    }
  }

  // ----- exactly what may still be resolved after stop -----

  /** The submitters past their last check: each will still put its request. */
  function Putting(s: Session): set<nat> {
    set id | id in s.submitters && s.submitters[id] == AtPut
  }

  /** What a worker that is not gone may still resolve. */
  function Outstanding(s: Session): nat {
    if s.worker == Gone then 0 else |Hand(s.worker)| + |Requests(s.queue)| + |Putting(s)|
  }

  /** The steps of the worker and the closers leave the submitters alone. */
  predicate OfSubmitter(step: Step) {
    step.SubmitCalled? || step.ReadySeen? || step.ReadyTimedOut? || step.ErrorChecked? || step.StopChecked? ||
      step.RequestPut?
  }

  /** After stop no step adds to what is resolved or outstanding, and none takes the stop back. */
  lemma TakeAddsNothing(s: Session, step: Step)
    requires s.stop && Enabled(s, step)
    ensures var t := Take(s, step); t.stop && |t.resolved| + Outstanding(t) <= |s.resolved| + Outstanding(s)
  {
    if OfSubmitter(step) {
      SubmitterAddsNothing(s, step);
    } else if step.MarkPut? || step.ItemTaken? || step.PendingTaken? {
      QueueAddsNothing(s, step);
    } else {
      hide Requests, Putting;
    }
  }

  lemma SubmitterAddsNothing(s: Session, step: Step)
    requires s.stop && Enabled(s, step) && OfSubmitter(step)
    ensures var t := Take(s, step); t.stop && |t.resolved| + Outstanding(t) <= |s.resolved| + Outstanding(s)
  {
    hide Requests;
    var t := Take(s, step);
    if step.RequestPut? {
      RequestsLast(s.queue, Request(step.id));
      assert Putting(t) == Putting(s) - {step.id};
    } else {
      assert t.queue == s.queue && t.worker == s.worker;
      assert Putting(t) == Putting(s);
    }
  }

  lemma QueueAddsNothing(s: Session, step: Step)
    requires s.stop && Enabled(s, step) && (step.MarkPut? || step.ItemTaken? || step.PendingTaken?)
    ensures var t := Take(s, step); t.stop && |t.resolved| + Outstanding(t) <= |s.resolved| + Outstanding(s)
  {
    hide Requests;
    var t := Take(s, step);
    assert Putting(t) == Putting(s);
    if step.MarkPut? { RequestsLast(s.queue, StopMark); }
    else if s.queue != [] { RequestsFirst(s.queue); }
  }

  lemma {:induction false} RunAddsNothing(s: Session, steps: seq<Step>)
    requires s.stop
    ensures var t := After(s, steps); t.stop && |t.resolved| + Outstanding(t) <= |s.resolved| + Outstanding(s)
  {
    if steps == [] {
      NoSteps(s);
    } else {
      hide Take, Enabled, Outstanding;
      RunAddsNothing(s, steps[..|steps| - 1]);
      var before := After(s, steps[..|steps| - 1]);
      if Enabled(before, steps[|steps| - 1]) { TakeAddsNothing(before, steps[|steps| - 1]); }
    }
  }

  /** Every submitter past its checks puts. */
  lemma {:induction false} AllPut(s: Session) returns (steps: seq<Step>)
    ensures var t := After(s, steps);
            && Putting(t) == {} && t.worker == s.worker && t.resolved == s.resolved
            && |Requests(t.queue)| == |Requests(s.queue)| + |Putting(s)|
    decreases |Putting(s)|
  {
    hide After, Requests;
    if Putting(s) == {} {
      steps := [];
      NoSteps(s);
    } else {
      var id :| id in Putting(s);
      var t := Take(s, RequestPut(id));
      RequestsLast(s.queue, Request(id));
      assert Putting(t) == Putting(s) - {id};
      var rest := AllPut(t);
      steps := [RequestPut(id)] + rest;
      OneStep(s, RequestPut(id));
      AfterThen(s, [RequestPut(id)], rest);
    }
  }

  lemma Then(s: Session, steps: seq<Step>, step: Step)
    requires Enabled(After(s, steps), step)
    ensures After(s, steps + [step]) == Take(After(s, steps), step)
  {
    hide Take, Enabled;
    assert (steps + [step])[..|steps|] == steps;
  }

  /** A worker that is not gone serves what it holds, fails, and comes to drain the queue as it is. */
  lemma FailsInto(s: Session) returns (steps: seq<Step>)
    requires s.worker != Gone
    ensures var t := After(s, steps);
            t.worker == Draining && t.queue == s.queue && t.resolved == s.resolved + Hand(s.worker)
  {
    hide After;
    steps := [];
    NoSteps(s);
    if s.worker.InHand? {
      Then(s, steps, ResultSet);
      steps := steps + [ResultSet];
    }
    if After(s, steps).worker != Failing && After(s, steps).worker != Draining {
      Then(s, steps, SessionFailed);
      steps := steps + [SessionFailed];
    }
    if After(s, steps).worker == Failing {
      Then(s, steps, FailureAnnounced);
      steps := steps + [FailureAnnounced];
    }
  }

  /** Everything outstanding can indeed be resolved. */
  lemma AllResolved(s: Session) returns (steps: seq<Step>)
    ensures |After(s, steps).resolved| == |s.resolved| + Outstanding(s)
  {
    hide After, Requests;
    if s.worker == Gone {
      steps := [];
      NoSteps(s);
    } else {
      var puts := AllPut(s);
      var t := After(s, puts);
      var fails := FailsInto(t);
      var u := After(t, fails);
      FailureDrains(u);
      steps := puts + (fails + Drain(|u.queue|));
      AfterThen(t, fails, Drain(|u.queue|));
      AfterThen(s, puts, fails + Drain(|u.queue|));
    }
  }

  predicate ResolvesAtMost(s: Session, steps: seq<Step>, n: nat) {
    |After(s, steps).resolved| <= |s.resolved| + n
  }

  /**
   Once stop is set, at most n more requests are resolved, in every interleaving, exactly when the worker is gone or no
   more than n are in its hand, queued, or about to be put by a submitter past its checks. So stopping bounds what is
   resolved by one exactly when at most one request is outstanding.
   */
  lemma StopBoundsIff(s: Session, n: nat)
    requires s.stop
    ensures (forall steps :: ResolvesAtMost(s, steps, n)) <==>
            s.worker == Gone || |Hand(s.worker)| + |Requests(s.queue)| + |Putting(s)| <= n
  {
    hide After, Requests;
    if Outstanding(s) <= n {
      forall steps ensures ResolvesAtMost(s, steps, n) { RunAddsNothing(s, steps); }
    } else {
      var steps := AllResolved(s);
      assert !ResolvesAtMost(s, steps, n);
    }
  }

  // ----- the transport's sessions -----

  /** What a session is keyed by: its spec without the timeout. */
  datatype ServerKey = ServerKey(prefix: string, command: string, args: seq<string>, env: map<string, string>,
                                 cwd: Option<string>)

  /** One session per server key, created under the lock; closing hands every held session to its `close` once. */
  class Transport {
    var sessions: map<ServerKey, nat>
    var created: nat
    ghost var handed: set<nat>

    ghost predicate Valid()
      reads this
    {
      && (forall k, l :: k in sessions && l in sessions && k != l ==> sessions[k] != sessions[l])
      && (forall k :: k in sessions ==> sessions[k] !in handed)
      && (forall i: nat :: i < created <==> i in handed || exists k :: k in sessions && sessions[k] == i)
    }

    constructor ()
      ensures Valid() && sessions == map[] && created == 0 && handed == {}
    {
      sessions, created, handed := map[], 0, {};
    }

    /** The held session of this key, or a new one. */
    method GetSession(key: ServerKey) returns (session: nat)
      requires Valid()
      modifies this
      ensures Valid() && handed == old(handed)
      ensures sessions == old(sessions)[key := session]
      ensures if key in old(sessions) then session == old(sessions)[key] && created == old(created)
              else session == old(created) && created == old(created) + 1
    {
      if key in sessions {
        session := sessions[key];
        assert sessions == old(sessions)[key := session];
      } else {
        session := created;
        ghost var before := sessions;
        sessions := sessions[key := session];
        created := created + 1;
        forall i: nat ensures i < created <==> i in handed || exists k :: k in sessions && sessions[k] == i {
          if i == session { assert key in sessions && sessions[key] == i; }
          else {
            if k :| k in before && before[k] == i { assert k in sessions && sessions[k] == i; }
            if k :| k in sessions && sessions[k] == i { assert k in before && before[k] == i; }
          }
        }
      }
    }

    /** Every held session is handed over for closing, and no session twice. */
    method Close() returns (closing: set<nat>)
      requires Valid()
      modifies this
      ensures Valid() && sessions == map[] && created == old(created)
      ensures closing == old(sessions).Values && closing !! old(handed) && handed == old(handed) + closing
    {
      closing := sessions.Values;
      sessions := map[];
      handed := handed + closing;
    }
  }
}
