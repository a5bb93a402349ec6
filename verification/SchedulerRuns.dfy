/** What every run of the scheduler keeps: history, order, slots, and progress. */
module SchedulerRuns {
  import opened Wrappers
  import opened Dispatcher
  import opened Retry
  import opened Scheduler

  function PendingOf(s: Sched, t: string): set<PriEntry> { QueueOf(s.d, t).pending }

  function InFlightOf(s: Sched, t: string): nat { QueueOf(s.d, t).inFlight }

  function OutOf(s: Sched, t: string): set<PriEntry> {
    set e | e in s.dispatched && e.turn.taskType == t
  }

  // ---------------------------------------------------------------- history

  predicate Distinct<T(==)>(xs: seq<T>) {
    forall i, j :: 0 <= i < j < |xs| ==> xs[i] != xs[j]
  }

  function WaitingOf(s: Sched, t: string): set<PriEntry> {
    set e | e in s.enqueued && e !in s.popped && e.turn.taskType == t
  }

  /** The queue of a type holds exactly the enqueued, not yet popped turns of that type: none lost, doubled or moved. */
  ghost predicate Conserved(s: Sched) {
    && s.d.maxConcurrent >= 1
    && (forall t :: PendingOf(s, t) == WaitingOf(s, t))
    && (forall e | e in s.popped :: e in s.enqueued)
    && Distinct(s.popped)
    && (forall e | e in s.dispatched :: e in s.popped)
    && Stamped(s)
  }

  ghost predicate Stamped(s: Sched) {
    && (forall e | e in s.enqueued :: e.seqNo < s.d.nextSeq && e.priority == e.turn.priority)
    && (forall x, y | x in s.enqueued && y in s.enqueued :: x.seqNo == y.seqNo ==> x == y)
  }

  /** `x` came first and is at least as urgent. */
  predicate Precedes(x: PriEntry, y: PriEntry) {
    x.turn.taskType == y.turn.taskType && x.seqNo < y.seqNo && x.priority >= y.priority
  }

  /** Nobody was popped while an entry that precedes it was still waiting. */
  ghost predicate NoOvertaking(s: Sched) {
    forall x, j | x in s.enqueued && 0 <= j < |s.popped| :: Precedes(x, s.popped[j]) ==> x in s.popped[..j]
  }

  ghost predicate History(s: Sched) {
    Conserved(s) && NoOvertaking(s)
  }

  /** Steps that touch neither the queues' contents nor the books of what was enqueued and popped. */
  lemma HistoryFrame(s: Sched, s': Sched)
    requires History(s) && s'.d.nextSeq == s.d.nextSeq && s'.d.maxConcurrent == s.d.maxConcurrent
    requires forall t :: PendingOf(s', t) == PendingOf(s, t)
    requires s'.enqueued == s.enqueued && s'.popped == s.popped && s'.dispatched <= s.dispatched
    ensures History(s')
  {
    forall t ensures PendingOf(s', t) == WaitingOf(s', t) {
      assert WaitingOf(s', t) == WaitingOf(s, t);
    }
  }

  function AfterEnqueue(s: Sched, turn: QueuedTurn): Sched {
    s.(d := Enqueued(s.d, turn), enqueued := s.enqueued + {PriEntry(turn.priority, s.d.nextSeq, turn)})
  }

  lemma EnqueueKeepsConserved(s: Sched, turn: QueuedTurn)
    requires Conserved(s)
    ensures Conserved(AfterEnqueue(s, turn))
  {
    var entry, s' := PriEntry(turn.priority, s.d.nextSeq, turn), AfterEnqueue(s, turn);
    assert entry !in s.enqueued && entry !in s.popped;
    forall t ensures PendingOf(s', t) == WaitingOf(s', t) {
      assert PendingOf(s, t) == WaitingOf(s, t);
      assert WaitingOf(s', t) == WaitingOf(s, t) + if t == turn.taskType then {entry} else {};
    }
  }

  lemma EnqueueKeepsHistory(s: Sched, turn: QueuedTurn)
    requires History(s)
    ensures History(AfterEnqueue(s, turn))
  {
    var entry, s' := PriEntry(turn.priority, s.d.nextSeq, turn), AfterEnqueue(s, turn);
    EnqueueKeepsConserved(s, turn);
    forall x, j | x in s'.enqueued && 0 <= j < |s'.popped| && Precedes(x, s'.popped[j]) ensures x in s'.popped[..j] {
      assert s.popped[j] in s.popped;
    }
  }

  lemma TopFacts(s: Sched, t: string)
    requires Conserved(s) && CanPop(s.d, t)
    ensures var e := Top(PendingOf(s, t));
            && e in s.enqueued && e !in s.popped && e !in s.dispatched && e.turn.taskType == t
            && e.priority == e.turn.priority
  {
    assert PendingOf(s, t) == WaitingOf(s, t);
  }

  lemma PopKeepsConserved(s: Sched, t: string, now: int)
    requires Conserved(s) && CanPop(s.d, t)
    ensures Conserved(PopOne(s, t, now))
  {
    var e, s' := Top(PendingOf(s, t)), PopOne(s, t, now);
    TopFacts(s, t);
    forall u ensures PendingOf(s', u) == WaitingOf(s', u) {
      assert PendingOf(s, u) == WaitingOf(s, u);
      assert WaitingOf(s', u) == WaitingOf(s, u) - {e};
    }
    assert forall x :: x in s'.popped <==> x in s.popped || x == e;
  }

  lemma PopKeepsOrder(s: Sched, t: string, now: int)
    requires History(s) && CanPop(s.d, t)
    ensures NoOvertaking(PopOne(s, t, now))
  {
    var e, s' := Top(PendingOf(s, t)), PopOne(s, t, now);
    TopFacts(s, t);
    forall x, j | x in s'.enqueued && 0 <= j < |s'.popped| && Precedes(x, s'.popped[j]) ensures x in s'.popped[..j] {
      if j < |s.popped| {
        assert s'.popped[..j] == s.popped[..j];
      } else {
        assert s'.popped[..j] == s.popped;
        assert Above(x, e);
        assert x !in PendingOf(s, t) && PendingOf(s, t) == WaitingOf(s, t);
      }
    }
  }

  /** A pop takes the most urgent waiting turn of its type, and of equally urgent ones the one that came first. */
  lemma PopTakesMostUrgent(s: Sched, t: string, now: int)
    requires Conserved(s) && CanPop(s.d, t)
    ensures var s' := PopOne(s, t, now); var e := s'.popped[|s.popped|];
            && s'.popped == s.popped + [e] && e in WaitingOf(s, t) && s'.times[KeyOf(e)] == now
            && forall x | x in WaitingOf(s, t) ::
                 x.turn.priority < e.turn.priority || (x.turn.priority == e.turn.priority && x.seqNo >= e.seqNo)
  {
    TopFacts(s, t);
    assert PendingOf(s, t) == WaitingOf(s, t);
  }

  lemma RefuseKeepsHistory(s: Sched, e: PriEntry)
    requires History(s)
    ensures History(RefuseOne(s, e))
  {
    HistoryFrame(s, RefuseOne(s, e));
  }

  lemma PopStepKeepsHistory(s: Sched, t: string, refused: set<nat>, now: int)
    requires History(s) && CanPop(s.d, t)
    ensures History(PopStep(s, t, refused, now))
  {
    PopKeepsConserved(s, t, now);
    PopKeepsOrder(s, t, now);
    RefuseKeepsHistory(PopOne(s, t, now), Top(PendingOf(s, t)));
  }

  // ---------------------------------------------------------------- slots

  /** Slots taken in a queue's counter that no dispatched turn and no leak accounts for. */
  function Slack(s: Sched, t: string): int {
    InFlightOf(s, t) - |OutOf(s, t)| - LeakedOf(s, t)
  }

  /** The slot ledger balances: every slot in use is held by a dispatched turn or was leaked. */
  ghost predicate Ledger(s: Sched) {
    forall t :: Slack(s, t) == 0
  }

  ghost predicate Capped(s: Sched) {
    forall t :: QueueOf(s.d, t).inFlight <= s.d.maxConcurrent
  }

  /** No type has both a waiting turn and a free slot. */
  ghost predicate WorkConserving(s: Sched) {
    forall t :: !CanPop(s.d, t)
  }

  lemma OutWith(s: Sched, s': Sched, e: PriEntry)
    requires e !in s.dispatched && s'.dispatched == s.dispatched + {e}
    ensures forall t :: |OutOf(s', t)| == |OutOf(s, t)| + if t == e.turn.taskType then 1 else 0
  {
    forall t ensures |OutOf(s', t)| == |OutOf(s, t)| + if t == e.turn.taskType then 1 else 0 {
      if t == e.turn.taskType {
        assert OutOf(s', t) == OutOf(s, t) + {e};
      } else {
        assert OutOf(s', t) == OutOf(s, t);
      }
    }
  }

  lemma PopStepKeepsSlots(s: Sched, t: string, refused: set<nat>, now: int)
    requires Conserved(s) && CanPop(s.d, t)
    ensures forall u :: Slack(PopStep(s, t, refused, now), u) == Slack(s, u)
    ensures Capped(s) ==> Capped(PopStep(s, t, refused, now))
  {
    var e, p := Top(PendingOf(s, t)), PopOne(s, t, now);
    TopFacts(s, t);
    OutWith(s, p, e);
    assert forall u :: QueueOf(p.d, u).inFlight == QueueOf(s.d, u).inFlight + if u == t then 1 else 0;
    if e.seqNo in refused {
      var r := RefuseOne(p, e);
      assert r.dispatched == s.dispatched;
      assert forall u :: OutOf(r, u) == OutOf(s, u);
      assert forall u :: QueueOf(r.d, u).inFlight == QueueOf(s.d, u).inFlight;
    }
  }

  lemma PopStepElsewhere(s: Sched, t: string, refused: set<nat>, now: int)
    requires Conserved(s) && CanPop(s.d, t)
    ensures forall u :: u != t ==> QueueOf(PopStep(s, t, refused, now).d, u) == QueueOf(s.d, u)
    ensures PopStep(s, t, refused, now).d.maxConcurrent == s.d.maxConcurrent
  {
    TopFacts(s, t);
  }

  lemma ReleasedHistory(s: Sched, t: string)
    requires History(s)
    ensures History(s.(d := Released(s.d, t)))
  {
    HistoryFrame(s, s.(d := Released(s.d, t)));
  }

  /** What a dispatch round keeps, whatever the broker refuses. */
  ghost predicate RoundKeeps(s: Sched, s': Sched, t: string) {
    && (forall u :: Slack(s', u) == Slack(s, u))
    && (Capped(s) ==> Capped(s'))
    && !CanPop(s'.d, t)
    && (forall u :: u != t ==> QueueOf(s'.d, u) == QueueOf(s.d, u))
    && s'.d.maxConcurrent == s.d.maxConcurrent
  }

  lemma RoundExtends(s: Sched, s1: Sched, s2: Sched, t: string)
    requires forall u :: Slack(s1, u) == Slack(s, u)
    requires Capped(s) ==> Capped(s1)
    requires forall u :: u != t ==> QueueOf(s1.d, u) == QueueOf(s.d, u)
    requires s1.d.maxConcurrent == s.d.maxConcurrent
    requires RoundKeeps(s1, s2, t)
    ensures RoundKeeps(s, s2, t)
  {
    hide Slack, Capped, QueueOf, CanPop;
  }

  lemma {:induction false} DispatchPendingKeeps(s: Sched, t: string, refused: set<nat>, now: int)
    requires History(s)
    ensures History(DispatchPending(s, t, refused, now))
    ensures RoundKeeps(s, DispatchPending(s, t, refused, now), t)
    decreases |PendingOf(s, t)|
  {
    if CanPop(s.d, t) {
      PendingShrinks(s, t, refused, now);
      PopStepKeepsHistory(s, t, refused, now);
      PopStepKeepsSlots(s, t, refused, now);
      PopStepElsewhere(s, t, refused, now);
      var s1 := PopStep(s, t, refused, now);
      DispatchPendingKeeps(s1, t, refused, now);
      RoundExtends(s, s1, DispatchPending(s1, t, refused, now), t);
    }
  }

  // ---------------------------------------------------------------- handlers

  /** A turn is over: its counters and its dispatched entry go. */
  ghost function Closed(s: Sched, k: Key): Sched { Settle(Forget(s, k), k) }

  lemma ClosedSlots(s: Sched, k: Key)
    ensures forall t :: Slack(Closed(s, k), t)
              == Slack(s, t) + if Holder(s, k).Some? && Holder(s, k).value.turn.taskType == t then 1 else 0
    ensures History(s) ==> History(Closed(s, k))
    ensures Closed(s, k).d == s.d
  {
    match Holder(s, k) {
      case None =>
        assert forall t :: OutOf(Closed(s, k), t) == OutOf(s, t);
      case Some(e) =>
        OutWith(Closed(s, k), s, e);
    }
    if History(s) {
      HistoryFrame(s, Closed(s, k));
    }
  }

  /** The report's turn is out, and the store names its type, if it names one. */
  predicate Proper(holder: Option<PriEntry>, env: Env) {
    holder.Some? && (env.resolved.Some? ==> env.resolved.value == holder.value.turn.taskType)
  }

  /** What no report can break, whatever turn it is about and whatever type the store names. */
  ghost predicate Steady(s: Sched) {
    History(s) && Capped(s) && WorkConserving(s)
  }

  ghost predicate Safe(s: Sched) {
    Steady(s) && Ledger(s)
  }

  /** Only books, counters and clocks differ, and perhaps fewer turns are out. */
  lemma SteadyFrame(s: Sched, s': Sched)
    requires Steady(s) && s'.d == s.d && s'.dispatched <= s.dispatched
    requires s'.enqueued == s.enqueued && s'.popped == s.popped
    ensures Steady(s')
  {
    HistoryFrame(s, s');
  }

  lemma ConservingElsewhere(s: Sched, s2: Sched, s3: Sched, t: string)
    requires WorkConserving(s) && Capped(s) && RoundKeeps(s2, s3, t)
    requires s2.d.maxConcurrent == s.d.maxConcurrent
    requires forall u :: InFlightOf(s2, u) <= InFlightOf(s, u) || u == t
    requires InFlightOf(s2, t) <= s.d.maxConcurrent
    requires forall u :: u != t ==> QueueOf(s2.d, u) == QueueOf(s.d, u)
    ensures WorkConserving(s3) && Capped(s3)
  {
    forall u ensures !CanPop(s3.d, u) {
      assert !CanPop(s.d, u);
    }
    forall u ensures InFlightOf(s2, u) <= s2.d.maxConcurrent {
    }
  }

  lemma ReleaseKeepsSteady(s: Sched, t: string, refused: set<nat>, now: int)
    requires Steady(s)
    ensures Steady(DispatchPending(s.(d := Released(s.d, t)), t, refused, now))
    ensures DispatchPending(s.(d := Released(s.d, t)), t, refused, now).d.maxConcurrent == s.d.maxConcurrent
  {
    var s2 := s.(d := Released(s.d, t));
    ReleasedHistory(s, t);
    assert InFlightOf(s2, t) <= s.d.maxConcurrent;
    assert forall u :: InFlightOf(s2, u) <= InFlightOf(s, u) || u == t;
    assert forall u :: u != t ==> QueueOf(s2.d, u) == QueueOf(s.d, u);
    hide History, Slack, Capped, CanPop, Released, WorkConserving;
    DispatchPendingKeeps(s2, t, refused, now);
    ConservingElsewhere(s, s2, DispatchPending(s2, t, refused, now), t);
    hide DispatchPending;
  }

  lemma FinishKeepsSteady(s: Sched, k: Key, env: Env)
    requires Steady(s)
    ensures Steady(Finish(s, k, env)) && Steady(FinishAndLeak(s, k))
    ensures Finish(s, k, env).d.maxConcurrent == s.d.maxConcurrent == FinishAndLeak(s, k).d.maxConcurrent
  {
    var s1 := Closed(s, k);
    SteadyFrame(s, s1);
    SteadyFrame(s1, Leak(s1, Holder(s, k)));
    if env.resolved.Some? {
      ReleaseKeepsSteady(s1, env.resolved.value, env.refused, env.now);
    }
    hide Steady, DispatchPending, EntryWithKey;
  }

  lemma EnqueueKeepsSteady(s: Sched, turn: QueuedTurn, refused: set<nat>, now: int)
    requires Steady(s)
    ensures Steady(EnqueueAndDispatch(s, turn, refused, now))
    ensures EnqueueAndDispatch(s, turn, refused, now).d.maxConcurrent == s.d.maxConcurrent
    ensures forall u :: Slack(EnqueueAndDispatch(s, turn, refused, now), u) == Slack(s, u)
  {
    var s1 := AfterEnqueue(s, turn);
    EnqueueKeepsHistory(s, turn);
    assert forall u :: OutOf(s1, u) == OutOf(s, u) && InFlightOf(s1, u) == InFlightOf(s, u);
    assert forall u :: Slack(s1, u) == Slack(s, u);
    DispatchPendingKeeps(s1, turn.taskType, refused, now);
    ConservingElsewhere(s, s1, DispatchPending(s1, turn.taskType, refused, now), turn.taskType);
  }

  /** How far a finished turn throws the ledger of type `u` off: its own slot stays taken, or a slot of another goes. */
  function FinishDrift(s: Sched, holder: Option<PriEntry>, resolved: Option<string>, u: string): int {
    match resolved
    case None => 0
    case Some(t) =>
      (if holder.Some? && holder.value.turn.taskType == u then 1 else 0) - if u == t && InFlightOf(s, t) > 0 then 1 else 0
  }

  lemma LeakSlots(s: Sched, k: Key)
    ensures forall u :: Slack(FinishAndLeak(s, k), u) == Slack(s, u)
  {
    ClosedSlots(s, k);
    var s1, s2 := Closed(s, k), FinishAndLeak(s, k);
    hide EntryWithKey, Settle, Forget;
    forall u ensures Slack(s2, u) == Slack(s, u) {
      assert OutOf(s2, u) == OutOf(s1, u);
    }
  }

  lemma ReleasedSlots(s: Sched, t: string)
    ensures forall u :: Slack(s.(d := Released(s.d, t)), u) == Slack(s, u) - if u == t && InFlightOf(s, t) > 0 then 1 else 0
  {
    var s2 := s.(d := Released(s.d, t));
    forall u ensures Slack(s2, u) == Slack(s, u) - if u == t && InFlightOf(s, t) > 0 then 1 else 0 {
      assert OutOf(s2, u) == OutOf(s, u);
    }
  }

  lemma FinishSlots(s: Sched, k: Key, env: Env)
    requires History(s)
    ensures forall u :: Slack(Finish(s, k, env), u) == Slack(s, u) + FinishDrift(s, Holder(s, k), env.resolved, u)
  {
    LeakSlots(s, k);
    ClosedSlots(s, k);
    var s1 := Closed(s, k);
    if env.resolved.Some? {
      var t := env.resolved.value;
      ReleasedSlots(s1, t);
      ReleasedHistory(s1, t);
      DispatchPendingKeeps(s1.(d := Released(s1.d, t)), t, env.refused, env.now);
    }
    hide History, Slack, DispatchPending, EntryWithKey, Released;
  }

  /** Only counters and clocks differ: nothing that `Safe` looks at. */
  lemma SafeFrame(s: Sched, s': Sched)
    requires Safe(s) && s'.d == s.d && s'.dispatched == s.dispatched && s'.leaked == s.leaked
    requires s'.enqueued == s.enqueued && s'.popped == s.popped
    ensures Safe(s')
  {
    SteadyFrame(s, s');
    SlackFrame(s, s');
  }

  lemma SlackFrame(s: Sched, s': Sched)
    requires s'.d == s.d && s'.dispatched == s.dispatched && s'.leaked == s.leaked
    ensures forall u :: Slack(s', u) == Slack(s, u)
  {
    assert forall u :: OutOf(s', u) == OutOf(s, u);
  }

  // ---------------------------------------------------------------- runs

  datatype Op =
    | Enqueue(turn: QueuedTurn, refused: set<nat>, now: int)
    | Done(k: Key, env: Env)
    | Error(k: Key, reason: FailureReason, env: Env)
    | Timeout(k: Key, env: Env)
    | Reclaim(k: Key, env: Env)

  ghost function Apply(s: Sched, op: Op): Sched {
    match op
    case Enqueue(turn, refused, now) => EnqueueAndDispatch(s, turn, refused, now)
    case Done(k, env) => HandleDone(s, k, env)
    case Error(k, reason, env) => HandleError(s, k, reason, env)
    case Timeout(k, env) => FailAndRespond(s, k, env)
    case Reclaim(k, env) => ReclaimOne(s, k, env)
  }

  ghost predicate Legit(s: Sched, op: Op) {
    op.Enqueue? || Proper(Holder(s, op.k), op.env)
  }

  ghost function RunFrom(s: Sched, ops: seq<Op>): Sched {
    if ops == [] then s else Apply(RunFrom(s, ops[..|ops| - 1]), ops[|ops| - 1])
  }

  ghost predicate AllLegit(s: Sched, ops: seq<Op>) {
    ops != [] ==> AllLegit(s, ops[..|ops| - 1]) && Legit(RunFrom(s, ops[..|ops| - 1]), ops[|ops| - 1])
  }

  /** The reasons that no retry can mend. */
  const FINAL_REASONS := {ApplicationError, PolicyDenied, CanceledByUser}

  /** A retry is due: the reason is not final, and the budget has room. */
  predicate RetryDue(s: Sched, k: Key, reason: FailureReason) {
    reason !in FINAL_REASONS && AttemptsOf(s.attempts, k) < s.maxAttempts
  }

  /** What the retry policy decides, in terms of the reason and the budget. */
  lemma DecisionMeaning(s: Sched, k: Key, reason: FailureReason)
    ensures Decide(s.maxAttempts, reason, AttemptsOf(s.attempts, k)) ==
            if RetryDue(s, k, reason) then RetryTurn(AttemptsOf(s.attempts, k) + 1) else FailTurn(reason !in FINAL_REASONS)
  {
  }

  /** The error path ends the turn and gives a slot back: there is a start, and no retry is due. */
  predicate ErrorFinishes(s: Sched, k: Key, reason: FailureReason, env: Env) {
    env.ok && env.hasStart && !RetryDue(s, k, reason)
  }

  /** The report ends its turn with the release of a slot. */
  predicate Finishes(s: Sched, op: Op) {
    match op
    case Enqueue(_, _, _) => false
    case Done(_, env) => env.ok
    case Timeout(_, _) => true
    case Error(k, reason, env) => ErrorFinishes(s, k, reason, env)
    case Reclaim(k, env) => ErrorFinishes(s, k, AgentUnresponsive, env)
  }

  ghost function Drift(s: Sched, op: Op, u: string): int {
    if !op.Enqueue? && Finishes(s, op) then FinishDrift(s, Holder(s, op.k), op.env.resolved, u) else 0
  }

  lemma ErrorStep(s: Sched, k: Key, reason: FailureReason, env: Env)
    requires Steady(s)
    ensures Steady(HandleError(s, k, reason, env)) && HandleError(s, k, reason, env).d.maxConcurrent == s.d.maxConcurrent
    ensures forall u :: Slack(HandleError(s, k, reason, env), u) == Slack(s, u) +
              if ErrorFinishes(s, k, reason, env) then FinishDrift(s, Holder(s, k), env.resolved, u) else 0
  {
    FinishKeepsSteady(s, k, env);
    FinishSlots(s, k, env);
    LeakSlots(s, k);
    DecisionMeaning(s, k, reason);
    if env.ok && env.hasStart && RetryDue(s, k, reason) {
      var s' := s.(attempts := s.attempts[k := AttemptsOf(s.attempts, k) + 1]);
      SteadyFrame(s, s');
      SlackFrame(s, s');
    }
    hide Steady, Slack, FinishDrift, Finish, FinishAndLeak, RetryDue, Decide;
  }

  lemma ReclaimSlots(s: Sched, k: Key, env: Env)
    requires Steady(s)
    ensures Steady(ReclaimOne(s, k, env)) && ReclaimOne(s, k, env).d.maxConcurrent == s.d.maxConcurrent
    ensures forall u :: Slack(ReclaimOne(s, k, env), u) == Slack(s, u) +
              if ErrorFinishes(s, k, AgentUnresponsive, env) then FinishDrift(s, Holder(s, k), env.resolved, u) else 0
  {
    var s1 := s.(times := s.times[k := env.now]);
    SteadyFrame(s, s1);
    SlackFrame(s, s1);
    ErrorStep(s1, k, AgentUnresponsive, env);
    hide Steady, Slack, HandleError;
  }

  /** Every step of any kind keeps what is steady, and shifts each type's ledger by its drift. */
  lemma StepKeepsSteady(s: Sched, op: Op)
    requires Steady(s)
    ensures Steady(Apply(s, op)) && Apply(s, op).d.maxConcurrent == s.d.maxConcurrent
    ensures forall u :: Slack(Apply(s, op), u) == Slack(s, u) + Drift(s, op, u)
  {
    match op {
      case Enqueue(turn, refused, now) =>
        EnqueueKeepsSteady(s, turn, refused, now);
        hide Steady, Slack, EnqueueAndDispatch;
      case Error(k, reason, env) =>
        ErrorStep(s, k, reason, env);
        hide Steady, Slack, FinishDrift, HandleError;
      case Reclaim(k, env) =>
        ReclaimSlots(s, k, env);
        hide Steady, Slack, FinishDrift, ReclaimOne;
      case _ =>
        FinishKeepsSteady(s, op.k, op.env);
        FinishSlots(s, op.k, op.env);
        hide Steady, Slack, FinishDrift, Finish;
    }
  }

  /** The named type is not that of the turn's own slot: the turn is out under another, or not out while a slot of `t` is in use. */
  predicate Mistakes(s: Sched, holder: Option<PriEntry>, t: string) {
    match holder
    case None => InFlightOf(s, t) > 0
    case Some(e) => e.turn.taskType != t
  }

  lemma HolderInFlight(s: Sched, k: Key)
    requires Ledger(s)
    ensures match Holder(s, k) case None => true case Some(e) => InFlightOf(s, e.turn.taskType) > 0
  {
    match Holder(s, k) {
      case None =>
      case Some(e) =>
        assert e in OutOf(s, e.turn.taskType);
        assert Slack(s, e.turn.taskType) == 0;
    }
  }

  /** The report releases a slot that its turn does not hold. */
  ghost predicate Misreleases(s: Sched, op: Op) {
    !op.Enqueue? && Finishes(s, op) && op.env.resolved.Some? && Mistakes(s, Holder(s, op.k), op.env.resolved.value)
  }

  lemma NoDriftIff(s: Sched, op: Op)
    requires Ledger(s)
    ensures (forall u :: Drift(s, op, u) == 0) <==> !Misreleases(s, op)
  {
    if !op.Enqueue? && op.env.resolved.Some? {
      HolderInFlight(s, op.k);
      var own := if Holder(s, op.k).Some? then Holder(s, op.k).value.turn.taskType else op.env.resolved.value;
      assert Drift(s, op, own) == 0 <==> !Misreleases(s, op);
    }
    hide EntryWithKey, Ledger, RetryDue;
  }

  /**
   Of all operations, in whatever safe state: one breaks the slot ledger if and only if it is a report
   that ends its turn, the store names a type, and either the turn is out under another type, or it is
   not out and the named type has a slot in use.
   */
  lemma ReportBreaksLedgerIff(s: Sched, op: Op)
    requires Safe(s)
    ensures !Ledger(Apply(s, op)) <==>
            !op.Enqueue? && Finishes(s, op) && op.env.resolved.Some? && Mistakes(s, Holder(s, op.k), op.env.resolved.value)
  {
    StepKeepsSteady(s, op);
    NoDriftIff(s, op);
    hide Apply, Steady, Slack, Drift, Finishes, Mistakes, EntryWithKey;
  }

  lemma StepKeepsSafe(s: Sched, op: Op)
    requires Safe(s) && Legit(s, op)
    ensures Safe(Apply(s, op))
  {
    StepKeepsSteady(s, op);
    ReportBreaksLedgerIff(s, op);
    hide Apply, Steady, Ledger, Finishes, EntryWithKey;
  }

  lemma {:induction false} RunKeepsSafe(s: Sched, ops: seq<Op>)
    requires Safe(s) && AllLegit(s, ops)
    ensures Safe(RunFrom(s, ops))
  {
    if ops != [] {
      RunKeepsSafe(s, ops[..|ops| - 1]);
      StepKeepsSafe(RunFrom(s, ops[..|ops| - 1]), ops[|ops| - 1]);
    }
  }

  lemma InitialIsSafe(limit: nat, maxAttempts: int)
    ensures Safe(Initial(limit, maxAttempts))
  {
    var s0 := Initial(limit, maxAttempts);
    assert forall u :: OutOf(s0, u) == {} && WaitingOf(s0, u) == {};
  }

  /** By how much the operations of a run shift the ledger of a type. */
  ghost function RunDrift(s: Sched, ops: seq<Op>, t: string): int {
    if ops == [] then 0
    else RunDrift(s, ops[..|ops| - 1], t) + Drift(RunFrom(s, ops[..|ops| - 1]), ops[|ops| - 1], t)
  }

  lemma {:induction false} RunKeepsSteady(s: Sched, ops: seq<Op>)
    requires Steady(s)
    ensures Steady(RunFrom(s, ops)) && RunFrom(s, ops).d.maxConcurrent == s.d.maxConcurrent
    ensures forall t :: Slack(RunFrom(s, ops), t) == Slack(s, t) + RunDrift(s, ops, t)
  {
    if ops != [] {
      RunKeepsSteady(s, ops[..|ops| - 1]);
      StepKeepsSteady(RunFrom(s, ops[..|ops| - 1]), ops[|ops| - 1]);
      hide Steady, Slack, Drift, Apply;
    }
  }

  /**
   Safety of every run whatever from an empty scheduler, with late, repeated and wrongly typed reports:
   the histories are kept, nobody overtakes, no type exceeds the cap, no type has both a waiting turn and
   a free slot, and every slot in use is held by a turn that is out, is written off as leaked, or is
   accounted for by the drift of the reports. Reports about turns that are out, under the right type or
   none, have no drift.
   */
  lemma SchedulerSafety(limit: nat, maxAttempts: int, ops: seq<Op>)
    ensures var s0 := Initial(limit, maxAttempts);
            var s := RunFrom(s0, ops);
            && Conserved(s) && NoOvertaking(s)
            && s.d.maxConcurrent == (if limit == 0 then 1 else limit)
            && (forall t :: InFlightOf(s, t) <= s.d.maxConcurrent)
            && (forall t :: PendingOf(s, t) == {} || InFlightOf(s, t) == s.d.maxConcurrent)
            && (forall t :: InFlightOf(s, t) == |OutOf(s, t)| + LeakedOf(s, t) + RunDrift(s0, ops, t))
            && (AllLegit(s0, ops) ==> forall t :: InFlightOf(s, t) == |OutOf(s, t)| + LeakedOf(s, t))
  {
    var s0 := Initial(limit, maxAttempts);
    InitialIsSafe(limit, maxAttempts);
    RunKeepsSteady(s0, ops);
    if AllLegit(s0, ops) {
      RunKeepsSafe(s0, ops);
    }
    var s := RunFrom(s0, ops);
    forall t
      ensures InFlightOf(s, t) == |OutOf(s, t)| + LeakedOf(s, t) + RunDrift(s0, ops, t)
      ensures AllLegit(s0, ops) ==> Slack(s, t) == 0
    {
      assert Slack(s0, t) == 0;
    }
    forall t ensures PendingOf(s, t) == {} || InFlightOf(s, t) == s.d.maxConcurrent {
      assert !CanPop(s.d, t);
    }
  }

  /** The ledger balances at the end of a run and after each of its prefixes. */
  ghost predicate BalancedThroughout(s: Sched, ops: seq<Op>) {
    Ledger(RunFrom(s, ops)) && (ops != [] ==> BalancedThroughout(s, ops[..|ops| - 1]))
  }

  ghost predicate NoneMisreleases(s: Sched, ops: seq<Op>) {
    ops != [] ==> NoneMisreleases(s, ops[..|ops| - 1]) && !Misreleases(RunFrom(s, ops[..|ops| - 1]), ops[|ops| - 1])
  }

  /**
   The ledger of every run, exactly: it balances after every operation if and only if no report
   releases a slot that its turn does not hold.
   */
  lemma {:induction false} RunBalancesIff(s: Sched, ops: seq<Op>)
    requires Safe(s)
    ensures BalancedThroughout(s, ops) <==> NoneMisreleases(s, ops)
  {
    if ops != [] {
      var l := ops[..|ops| - 1];
      RunBalancesIff(s, l);
      RunKeepsSteady(s, l);
      assert BalancedThroughout(s, l) ==> Ledger(RunFrom(s, l));
      hide Steady, Ledger, Apply, Finishes, Mistakes, EntryWithKey;
      if BalancedThroughout(s, l) {
        ReportBreaksLedgerIff(RunFrom(s, l), ops[|ops| - 1]);
      }
    }
  }

  /** Without leaks nothing waits once nothing is out. */
  lemma QuiescentQueuesAreEmpty(s: Sched)
    requires Safe(s) && s.dispatched == {}
    ensures forall t :: LeakedOf(s, t) < s.d.maxConcurrent ==> PendingOf(s, t) == {}
    ensures (forall t :: LeakedOf(s, t) < s.d.maxConcurrent) ==> forall e | e in s.enqueued :: e in s.popped
  {
    forall t | LeakedOf(s, t) < s.d.maxConcurrent ensures PendingOf(s, t) == {} {
      assert OutOf(s, t) == {} && Slack(s, t) == 0 && !CanPop(s.d, t);
    }
    if forall t :: LeakedOf(s, t) < s.d.maxConcurrent {
      forall e | e in s.enqueued ensures e in s.popped {
        assert PendingOf(s, e.turn.taskType) == WaitingOf(s, e.turn.taskType);
      }
    }
  }

  /**
   A report about a turn that is not out (late, repeated, or still queued) breaks the ledger exactly
   when it ends that turn and names a type with a slot in use.
   */
  lemma StrayReportBreaksLedgerIff(s: Sched, op: Op)
    requires Safe(s) && !op.Enqueue? && !HasKey(s.dispatched, op.k)
    ensures !Ledger(Apply(s, op)) <==>
            Finishes(s, op) && op.env.resolved.Some? && InFlightOf(s, op.env.resolved.value) > 0
  {
    hide Apply, Ledger, Safe, Finishes;
    ReportBreaksLedgerIff(s, op);
  }

  /** A turn of a type with a free slot and an empty queue is out as soon as it is enqueued. */
  lemma OneMoreOut(s: Sched, turn: QueuedTurn, now: int)
    requires Safe(s) && PendingOf(s, turn.taskType) == {}
    requires InFlightOf(s, turn.taskType) < s.d.maxConcurrent
    ensures var s' := EnqueueAndDispatch(s, turn, {}, now);
            && Safe(s') && PendingOf(s', turn.taskType) == {}
            && InFlightOf(s', turn.taskType) == InFlightOf(s, turn.taskType) + 1
            && s'.dispatched == s.dispatched + {PriEntry(turn.priority, s.d.nextSeq, turn)}
            && PriEntry(turn.priority, s.d.nextSeq, turn) !in s.dispatched
            && s'.leaked == s.leaked && s'.d.maxConcurrent == s.d.maxConcurrent
  {
    var t, e := turn.taskType, PriEntry(turn.priority, s.d.nextSeq, turn);
    StepKeepsSafe(s, Enqueue(turn, {}, now));
    var s1 := AfterEnqueue(s, turn);
    assert PendingOf(s1, t) == {e} && e !in s.dispatched;
    assert Top(PendingOf(s1, t)) == e;
    var s2 := PopStep(s1, t, {}, now);
    assert PendingOf(s2, t) == {};
    assert DispatchPending(s2, t, {}, now) == s2;
    hide Safe;
  }

  /** A stray report that breaks the ledger is a run away: enqueue one turn and report another of its type. */
  lemma StrayReportIsReachable(limit: nat, maxAttempts: int, turn: QueuedTurn, now: int, k: Key, env: Env)
    requires k != Key(turn.taskId, turn.turnId) && env.resolved == Some(turn.taskType)
    ensures var s := EnqueueAndDispatch(Initial(limit, maxAttempts), turn, {}, now);
            Safe(s) && !Legit(s, Timeout(k, env)) && !Ledger(Apply(s, Timeout(k, env)))
  {
    InitialIsSafe(limit, maxAttempts);
    OneMoreOut(Initial(limit, maxAttempts), turn, now);
    var s := EnqueueAndDispatch(Initial(limit, maxAttempts), turn, {}, now);
    hide Safe, Ledger, Finish, EnqueueAndDispatch;
    StrayReportBreaksLedgerIff(s, Timeout(k, env));
  }

  // ---------------------------------------------------------------- retries

  lemma {:induction false} DispatchKeepsGone(s: Sched, t: string, refused: set<nat>, now: int, e: PriEntry)
    requires History(s) && e in s.popped && e !in s.dispatched
    ensures e !in DispatchPending(s, t, refused, now).dispatched
    ensures e in DispatchPending(s, t, refused, now).popped
    decreases |PendingOf(s, t)|
  {
    if CanPop(s.d, t) {
      TopFacts(s, t);
      PendingShrinks(s, t, refused, now);
      PopStepKeepsHistory(s, t, refused, now);
      var s1 := PopStep(s, t, refused, now);
      assert e in s1.popped && e !in s1.dispatched;
      hide History, PopStep, CanPop;
      DispatchKeepsGone(s1, t, refused, now, e);
    }
  }

  /** A turn that is over is out no more, and nothing the handler pops brings it back. */
  lemma FinishedIsGone(s: Sched, k: Key, env: Env)
    requires History(s) && Holder(s, k).Some?
    ensures Holder(s, k).value !in Finish(s, k, env).dispatched && Holder(s, k).value !in FinishAndLeak(s, k).dispatched
  {
    var s1 := Closed(s, k);
    ClosedSlots(s, k);
    if env.resolved.Some? {
      var t := env.resolved.value;
      ReleasedHistory(s1, t);
      assert Holder(s, k).value in s1.popped && Holder(s, k).value !in s1.dispatched;
      hide History, EntryWithKey, Slack;
      DispatchKeepsGone(s1.(d := Released(s1.d, t)), t, env.refused, env.now, Holder(s, k).value);
    }
    hide DispatchPending;
  }

  /**
   What an error report does to a turn that is out: it stays out if and only if the log did not answer,
   or its start is there, the reason is none of an application error, a denied policy and a cancellation,
   fewer attempts were made than the budget allows, and the turn could be sent again. A turn that is sent
   again has one attempt more, and nothing else changes; one that goes loses its counter.
   */
  lemma ErrorRetriesIff(s: Sched, k: Key, reason: FailureReason, env: Env)
    requires History(s) && Holder(s, k).Some?
    ensures var s', e := HandleError(s, k, reason, env), Holder(s, k).value;
            var tries := AttemptsOf(s.attempts, k);
            && (e in s'.dispatched <==>
                  !env.ok || (env.hasStart && env.redispatched && tries < s.maxAttempts
                              && reason != ApplicationError && reason != PolicyDenied && reason != CanceledByUser))
            && (env.ok && e in s'.dispatched ==> s' == s.(attempts := s.attempts[k := tries + 1]))
            && (e !in s'.dispatched ==> k !in s'.attempts)
            && (!env.ok ==> s' == s)
  {
    DecisionMeaning(s, k, reason);
    FinishedIsGone(s, k, env);
    FinishedHasNoCounter(s, k, env);
    hide Decide, Finish, FinishAndLeak, History;
  }

  lemma {:induction false} DispatchAddsNoCounter(s: Sched, t: string, refused: set<nat>, now: int, k: Key)
    requires k !in s.attempts
    ensures k !in DispatchPending(s, t, refused, now).attempts
    decreases |PendingOf(s, t)|
  {
    if CanPop(s.d, t) {
      PendingShrinks(s, t, refused, now);
      DispatchAddsNoCounter(PopStep(s, t, refused, now), t, refused, now, k);
    }
  }

  /** With a turn its retry counter goes. */
  lemma FinishedHasNoCounter(s: Sched, k: Key, env: Env)
    ensures k !in Finish(s, k, env).attempts && k !in FinishAndLeak(s, k).attempts
  {
    var s1 := Closed(s, k);
    if env.resolved.Some? {
      DispatchAddsNoCounter(s1.(d := Released(s1.d, env.resolved.value)), env.resolved.value, env.refused, env.now, k);
    }
    hide DispatchPending, Released, EntryWithKey;
  }

  /** So many reclaims of one turn in a row, each with its own answers. */
  function Reclaims(k: Key, envs: seq<Env>): seq<Op> {
    seq(|envs|, i requires 0 <= i < |envs| => Reclaim(k, envs[i]))
  }

  /** The log answers, the start is there, and sending again works. */
  predicate Resent(env: Env) { env.ok && env.hasStart && env.redispatched }

  lemma ReclaimOnce(s: Sched, e: PriEntry, env: Env)
    requires Steady(s) && Holder(s, KeyOf(e)) == Some(e) && Resent(env)
    ensures var s', tries := ReclaimOne(s, KeyOf(e), env), AttemptsOf(s.attempts, KeyOf(e));
            if tries < s.maxAttempts
            then Steady(s') && StillOut(s', e, tries + 1) && s'.maxAttempts == s.maxAttempts
            else e !in s'.dispatched
  {
    var s1, s' := s.(times := s.times[KeyOf(e) := env.now]), ReclaimOne(s, KeyOf(e), env);
    SteadyFrame(s, s1);
    assert Holder(s1, KeyOf(e)) == Some(e);
    ErrorRetriesIff(s1, KeyOf(e), AgentUnresponsive, env);
    if AttemptsOf(s.attempts, KeyOf(e)) < s.maxAttempts {
      SteadyFrame(s1, s');
      assert s'.dispatched == s.dispatched;
    }
    hide Steady, HandleError;
  }

  /** The turn is out, with so many attempts behind it. */
  ghost predicate StillOut(s: Sched, e: PriEntry, tries: int) {
    Holder(s, KeyOf(e)) == Some(e) && AttemptsOf(s.attempts, KeyOf(e)) == tries
  }

  lemma {:induction false} ReclaimedWithinBudget(s: Sched, e: PriEntry, envs: seq<Env>)
    requires Steady(s) && StillOut(s, e, 0) && |envs| <= Budget(s)
    requires forall i :: 0 <= i < |envs| ==> Resent(envs[i])
    ensures var s' := RunFrom(s, Reclaims(KeyOf(e), envs));
            Steady(s') && StillOut(s', e, |envs|) && s'.maxAttempts == s.maxAttempts
  {
    var ops := Reclaims(KeyOf(e), envs);
    if envs != [] {
      var before := envs[..|envs| - 1];
      assert ops[..|ops| - 1] == Reclaims(KeyOf(e), before);
      hide Steady, StillOut;
      ReclaimedWithinBudget(s, e, before);
      assert StillOut(RunFrom(s, Reclaims(KeyOf(e), before)), e, |before|);
      ReclaimAgain(RunFrom(s, Reclaims(KeyOf(e), before)), e, envs[|envs| - 1], |before|);
      hide ReclaimOne;
    }
  }

  lemma ReclaimAgain(s: Sched, e: PriEntry, env: Env, tries: nat)
    requires Steady(s) && StillOut(s, e, tries) && Resent(env)
    ensures var s' := ReclaimOne(s, KeyOf(e), env);
            if tries < s.maxAttempts then Steady(s') && StillOut(s', e, tries + 1) && s'.maxAttempts == s.maxAttempts
            else e !in s'.dispatched
  {
    ReclaimOnce(s, e, env);
    hide Steady, ReclaimOne;
  }

  /**
   A turn that is only ever reclaimed by the watchdog and sent again is still out after as many reclaims
   as the budget allows, and gone after the next one.
   */
  lemma ReclaimedUntilBudget(s: Sched, e: PriEntry, envs: seq<Env>)
    requires Steady(s) && e in s.dispatched && Holder(s, KeyOf(e)) == Some(e) && KeyOf(e) !in s.attempts
    requires |envs| <= Budget(s) + 1 && forall i :: 0 <= i < |envs| ==> Resent(envs[i])
    ensures e in RunFrom(s, Reclaims(KeyOf(e), envs)).dispatched <==> |envs| <= s.maxAttempts || envs == []
    ensures |envs| <= s.maxAttempts ==> AttemptsOf(RunFrom(s, Reclaims(KeyOf(e), envs)).attempts, KeyOf(e)) == |envs|
  {
    if |envs| <= Budget(s) {
      ReclaimedWithinBudget(s, e, envs);
    } else {
      ReclaimedOnceTooOften(s, e, envs);
    }
    hide Steady, RunFrom, Reclaims;
  }

  lemma ReclaimedOnceTooOften(s: Sched, e: PriEntry, envs: seq<Env>)
    requires Steady(s) && StillOut(s, e, 0) && |envs| == Budget(s) + 1
    requires forall i :: 0 <= i < |envs| ==> Resent(envs[i])
    ensures e !in RunFrom(s, Reclaims(KeyOf(e), envs)).dispatched
  {
    var before, ops := envs[..|envs| - 1], Reclaims(KeyOf(e), envs);
    assert ops[..|ops| - 1] == Reclaims(KeyOf(e), before);
    hide Steady, StillOut, ReclaimOne;
    ReclaimedWithinBudget(s, e, before);
    ReclaimAgain(RunFrom(s, Reclaims(KeyOf(e), before)), e, envs[|envs| - 1], |before|);
  }

  // ---------------------------------------------------------------- progress

  function Budget(s: Sched): nat {
    if s.maxAttempts < 0 then 0 else s.maxAttempts
  }

  function Waiting(s: Sched): set<PriEntry> {
    set e | e in s.enqueued && e !in s.popped
  }

  predicate DistinctKeys(live: set<PriEntry>) {
    forall x, y | x in live && y in live :: KeyOf(x) == KeyOf(y) ==> x == y
  }

  /** The side books agree with what is out: live turns have distinct keys, the clock map has exactly the turns that are out, and no counter leaves its budget. */
  ghost predicate Tracked(s: Sched) {
    && DistinctKeys(Waiting(s) + s.dispatched)
    && (forall k :: k in s.times <==> HasKey(s.dispatched, k))
    && InBudget(s)
  }

  predicate InBudget(s: Sched) {
    forall k | k in s.attempts :: 0 <= s.attempts[k] <= Budget(s)
  }

  /** What a dispatched turn can still cost: its remaining retries and its end. */
  function Remaining(s: Sched, e: PriEntry): int {
    Budget(s) + 1 - AttemptsOf(s.attempts, KeyOf(e))
  }

  ghost function Cost(budget: nat, attempts: map<Key, int>, out: set<PriEntry>): int {
    if out == {} then 0
    else
      var e :| e in out;
      budget + 1 - AttemptsOf(attempts, KeyOf(e)) + Cost(budget, attempts, out - {e})
  }

  lemma {:induction false} CostRemove(budget: nat, attempts: map<Key, int>, out: set<PriEntry>, e: PriEntry)
    requires e in out
    ensures Cost(budget, attempts, out) == budget + 1 - AttemptsOf(attempts, KeyOf(e)) + Cost(budget, attempts, out - {e})
    decreases |out|
  {
    var p :| p in out && Cost(budget, attempts, out) == budget + 1 - AttemptsOf(attempts, KeyOf(p)) + Cost(budget, attempts, out - {p});
    if p != e {
      CostRemove(budget, attempts, out - {p}, e);
      CostRemove(budget, attempts, out - {e}, p);
      assert out - {p} - {e} == out - {e} - {p};
    }
  }

  lemma {:induction false} CostFrame(budget: nat, a: map<Key, int>, b: map<Key, int>, out: set<PriEntry>)
    requires forall e | e in out :: AttemptsOf(a, KeyOf(e)) == AttemptsOf(b, KeyOf(e))
    ensures Cost(budget, a, out) == Cost(budget, b, out)
    decreases |out|
  {
    if out != {} {
      var p :| p in out && Cost(budget, a, out) == budget + 1 - AttemptsOf(a, KeyOf(p)) + Cost(budget, a, out - {p});
      CostRemove(budget, b, out, p);
      CostFrame(budget, a, b, out - {p});
    }
  }

  lemma {:induction false} CostNonNegative(budget: nat, attempts: map<Key, int>, out: set<PriEntry>)
    requires forall k | k in attempts :: attempts[k] <= budget
    ensures Cost(budget, attempts, out) >= |out|
    decreases |out|
  {
    if out != {} {
      var p :| p in out && Cost(budget, attempts, out) == budget + 1 - AttemptsOf(attempts, KeyOf(p)) + Cost(budget, attempts, out - {p});
      CostNonNegative(budget, attempts, out - {p});
      assert |out - {p}| == |out| - 1;
      assert AttemptsOf(attempts, KeyOf(p)) <= budget;
    }
  }

  function Weight(budget: nat, n: nat): nat { (budget + 2) * n }

  lemma WeightFacts(budget: nat, n: nat)
    ensures Weight(budget, n) >= n
    ensures n > 0 ==> Weight(budget, n - 1) + budget + 2 == Weight(budget, n)
  {
    if n > 0 {
      assert (budget + 2) * (n - 1) == (budget + 2) * n - (budget + 2);
    }
  }

  /** The potential: a waiting turn is worth a pop and a whole budget, a dispatched one what it can still cost. */
  ghost function Potential(s: Sched): int {
    Weight(Budget(s), |Waiting(s)|) + Cost(Budget(s), s.attempts, s.dispatched)
  }

  lemma PotentialBounds(s: Sched)
    requires Tracked(s)
    ensures Potential(s) >= |Waiting(s)| + |s.dispatched|
  {
    CostNonNegative(Budget(s), s.attempts, s.dispatched);
    hide Waiting, Cost, Tracked;
    WeightFacts(Budget(s), |Waiting(s)|);
  }

  /** Dropping one dispatched turn together with its counter. */
  lemma DropCost(s: Sched, e: PriEntry)
    requires DistinctKeys(s.dispatched) && e in s.dispatched
    ensures Cost(Budget(s), s.attempts - {KeyOf(e)}, s.dispatched - {e})
         == Cost(Budget(s), s.attempts, s.dispatched) - Remaining(s, e)
  {
    CostRemove(Budget(s), s.attempts, s.dispatched, e);
    CostFrame(Budget(s), s.attempts, s.attempts - {KeyOf(e)}, s.dispatched - {e});
  }

  /** Dropping one dispatched turn from all the books. */
  lemma DropTracked(s: Sched, s': Sched, e: PriEntry)
    requires Tracked(s) && e in s.dispatched
    requires s' == Forget(s, KeyOf(e)).(d := s'.d, leaked := s'.leaked, dispatched := s.dispatched - {e})
    ensures Tracked(s') && Waiting(s') == Waiting(s)
  {
    assert forall x | x in s'.dispatched :: x in Waiting(s) + s.dispatched;
    assert e in Waiting(s) + s.dispatched;
    forall k ensures k in s'.times <==> HasKey(s'.dispatched, k) {
      assert k in s.times <==> HasKey(s.dispatched, k);
      if k != KeyOf(e) && HasKey(s.dispatched, k) {
        var x :| x in s.dispatched && KeyOf(x) == k;
        assert x in s'.dispatched;
      }
    }
  }

  lemma DropProgress(s: Sched, s': Sched, e: PriEntry)
    requires Tracked(s) && e in s.dispatched
    requires s' == Forget(s, KeyOf(e)).(d := s'.d, leaked := s'.leaked, dispatched := s.dispatched - {e})
    ensures Tracked(s') && Potential(s') < Potential(s)
  {
    DropTracked(s, s', e);
    assert DistinctKeys(s.dispatched) by {
      assert forall x | x in s.dispatched :: x in Waiting(s) + s.dispatched;
    }
    DropCost(s, e);
    hide Cost;
    assert AttemptsOf(s.attempts, KeyOf(e)) <= Budget(s);
  }

  lemma PopTracked(s: Sched, t: string, now: int)
    requires Conserved(s) && Tracked(s) && CanPop(s.d, t)
    ensures var p, e := PopOne(s, t, now), Top(PendingOf(s, t));
            Tracked(p) && Waiting(p) == Waiting(s) - {e} && e in Waiting(s) && e !in s.dispatched
  {
    hide Top;
    var e, p := Top(PendingOf(s, t)), PopOne(s, t, now);
    TopFacts(s, t);
    assert Waiting(p) == Waiting(s) - {e};
    assert Waiting(p) + p.dispatched == Waiting(s) + s.dispatched;
    forall k ensures k in p.times <==> HasKey(p.dispatched, k) {
      assert k in s.times <==> HasKey(s.dispatched, k);
      if HasKey(s.dispatched, k) {
        var x :| x in s.dispatched && KeyOf(x) == k;
        assert x in p.dispatched;
      }
      assert e in p.dispatched;
    }
  }

  /** Moving one entry from waiting to dispatched. */
  lemma MovePotential(s: Sched, p: Sched, e: PriEntry)
    requires e in Waiting(s) && Waiting(p) == Waiting(s) - {e}
    requires e !in s.dispatched && p.dispatched == s.dispatched + {e}
    requires p.attempts == s.attempts && p.maxAttempts == s.maxAttempts && AttemptsOf(s.attempts, KeyOf(e)) >= 0
    ensures Potential(p) < Potential(s)
  {
    assert p.dispatched - {e} == s.dispatched;
    CostRemove(Budget(s), s.attempts, p.dispatched, e);
    WeightFacts(Budget(s), |Waiting(s)|);
    hide Cost, Waiting, Weight, KeyOf, AttemptsOf;
    assert |Waiting(p)| == |Waiting(s)| - 1;
  }

  lemma PopPotential(s: Sched, t: string, now: int)
    requires Conserved(s) && Tracked(s) && CanPop(s.d, t)
    ensures Potential(PopOne(s, t, now)) < Potential(s)
  {
    hide Potential, Top;
    var e := Top(PendingOf(s, t));
    PopTracked(s, t, now);
    AttemptsNonNegative(s, KeyOf(e));
    MovePotential(s, PopOne(s, t, now), e);
  }

  lemma AttemptsNonNegative(s: Sched, k: Key)
    requires Tracked(s)
    ensures 0 <= AttemptsOf(s.attempts, k) <= Budget(s)
  {
  }

  lemma PopProgress(s: Sched, t: string, refused: set<nat>, now: int)
    requires Conserved(s) && Tracked(s) && CanPop(s.d, t)
    ensures var s' := PopStep(s, t, refused, now);
            Tracked(s') && Potential(s') < Potential(s) && |s'.popped| == |s.popped| + 1
  {
    var e, p := Top(PendingOf(s, t)), PopOne(s, t, now);
    PopTracked(s, t, now);
    PopPotential(s, t, now);
    hide Top, Tracked, Potential, Conserved, PoppedEntry, Released;
    if e.seqNo in refused {
      DropProgress(p, RefuseOne(p, e), e);
    }
  }

  lemma {:induction false} DispatchProgress(s: Sched, t: string, refused: set<nat>, now: int)
    requires History(s) && Tracked(s)
    ensures var s' := DispatchPending(s, t, refused, now);
            Tracked(s') && Potential(s') + |s'.popped| <= Potential(s) + |s.popped|
    decreases |PendingOf(s, t)|
  {
    if CanPop(s.d, t) {
      PendingShrinks(s, t, refused, now);
      PopStepKeepsHistory(s, t, refused, now);
      PopProgress(s, t, refused, now);
      DispatchProgress(PopStep(s, t, refused, now), t, refused, now);
    }
  }

  lemma SamePotential(s: Sched, s': Sched)
    requires Waiting(s') == Waiting(s)
    requires s'.attempts == s.attempts && s'.dispatched == s.dispatched && s'.maxAttempts == s.maxAttempts
    ensures Potential(s') == Potential(s)
  {
    hide Waiting, Cost;
  }

  lemma BooksFrame(s: Sched, s': Sched)
    requires Tracked(s)
    requires s' == s.(d := s'.d, leaked := s'.leaked)
    ensures Tracked(s') && Potential(s') == Potential(s)
  {
    assert Waiting(s') == Waiting(s);
    SamePotential(s, s');
    hide Potential;
  }

  lemma ClosedProgress(s: Sched, k: Key)
    requires History(s) && Tracked(s) && HasKey(s.dispatched, k)
    ensures var s1 := Closed(s, k);
            History(s1) && Tracked(s1) && Potential(s1) < Potential(s) && s1.popped == s.popped
  {
    ClosedSlots(s, k);
    DropProgress(s, Closed(s, k), Holder(s, k).value);
  }

  lemma FinishAndLeakProgress(s: Sched, k: Key)
    requires History(s) && Tracked(s) && HasKey(s.dispatched, k)
    ensures var s' := FinishAndLeak(s, k);
            Tracked(s') && Potential(s') + |s'.popped| < Potential(s) + |s.popped|
  {
    ClosedProgress(s, k);
    BooksFrame(Closed(s, k), FinishAndLeak(s, k));
    hide Tracked, Potential, History;
  }

  lemma ReleasedProgress(s: Sched, k: Key, t: string)
    requires History(s) && Tracked(s) && HasKey(s.dispatched, k)
    ensures var s2 := Closed(s, k).(d := Released(Closed(s, k).d, t));
            History(s2) && Tracked(s2) && Potential(s2) < Potential(s) && s2.popped == s.popped
  {
    var s1 := Closed(s, k);
    var s2 := s1.(d := Released(s1.d, t));
    ClosedProgress(s, k);
    BooksFrame(s1, s2);
    hide Tracked, Potential, Closed, History;
    ReleasedHistory(s1, t);
  }

  lemma FinishProgress(s: Sched, k: Key, env: Env)
    requires History(s) && Tracked(s) && HasKey(s.dispatched, k)
    ensures var s' := Finish(s, k, env);
            Tracked(s') && Potential(s') + |s'.popped| < Potential(s) + |s.popped|
  {
    match env.resolved {
      case None => FinishAndLeakProgress(s, k);
      case Some(t) =>
        ReleasedProgress(s, k, t);
        var s1 := Closed(s, k);
        hide Tracked, Potential, History, Closed;
        DispatchProgress(s1.(d := Released(s1.d, t)), t, env.refused, env.now);
    }
  }

  lemma RetryProgress(s: Sched, k: Key, next: int)
    requires Tracked(s) && HasKey(s.dispatched, k)
    requires next == AttemptsOf(s.attempts, k) + 1 && next <= Budget(s)
    ensures var s' := s.(attempts := s.attempts[k := next]);
            Tracked(s') && Potential(s') == Potential(s) - 1
  {
    var s', e := s.(attempts := s.attempts[k := next]), Holder(s, k).value;
    assert DistinctKeys(s.dispatched);
    CostRemove(Budget(s), s.attempts, s.dispatched, e);
    CostRemove(Budget(s), s'.attempts, s.dispatched, e);
    CostFrame(Budget(s), s.attempts, s'.attempts, s.dispatched - {e});
    assert Waiting(s') == Waiting(s);
    assert AttemptsOf(s.attempts, k) >= 0;
  }

  lemma ErrorProgress(s: Sched, k: Key, reason: FailureReason, env: Env)
    requires History(s) && Tracked(s) && HasKey(s.dispatched, k) && env.ok
    ensures var s' := HandleError(s, k, reason, env);
            Tracked(s') && Potential(s') + |s'.popped| < Potential(s) + |s.popped|
  {
    hide Tracked, Potential, History, Finish, FinishAndLeak;
    FinishProgress(s, k, env);
    FinishAndLeakProgress(s, k);
    match Decide(s.maxAttempts, reason, AttemptsOf(s.attempts, k)) {
      case FailTurn(_) =>
      case RetryTurn(next) => RetryProgress(s, k, next);
    }
  }

  lemma TouchTracked(s: Sched, k: Key, now: int)
    requires Tracked(s) && HasKey(s.dispatched, k)
    ensures Tracked(s.(times := s.times[k := now]))
  {
    var s1 := s.(times := s.times[k := now]);
    assert Waiting(s1) == Waiting(s);
    hide Waiting, HasKey, DistinctKeys, AttemptsOf;
  }

  lemma TouchClock(s: Sched, k: Key, now: int)
    requires History(s) && Tracked(s) && HasKey(s.dispatched, k)
    ensures var s1 := s.(times := s.times[k := now]);
            History(s1) && Tracked(s1) && Potential(s1) == Potential(s)
  {
    var s1 := s.(times := s.times[k := now]);
    HistoryFrame(s, s1);
    TouchTracked(s, k, now);
    assert Waiting(s1) == Waiting(s);
    hide Potential, History, Tracked, HasKey, Waiting;
    SamePotential(s, s1);
  }

  /** A report that the log confirmed. */
  predicate Confirmed(op: Op) {
    !op.Enqueue? && (op.Timeout? || op.env.ok)
  }

  /** Every confirmed report pays at least one unit, and every pop it triggers one more. */
  lemma ReportProgress(s: Sched, op: Op)
    requires History(s) && Tracked(s) && Confirmed(op) && HasKey(s.dispatched, op.k)
    ensures var s' := Apply(s, op);
            Tracked(s') && Potential(s') + |s'.popped| < Potential(s) + |s.popped|
  {
    hide Tracked, Potential, History, Finish, FinishAndLeak, HandleError;
    match op {
      case Done(k, env) => FinishProgress(s, k, env);
      case Error(k, reason, env) => ErrorProgress(s, k, reason, env);
      case Timeout(k, env) => FinishProgress(s, k, env);
      case Reclaim(k, env) =>
        TouchClock(s, k, env.now);
        ErrorProgress(s.(times := s.times[k := env.now]), k, AgentUnresponsive, env);
    }
  }

  /**
   Without new turns the scheduler runs dry: in any run of confirmed, legitimate reports the number
   of reports (done, error, timeout or watchdog reclaim) plus the number of pops is at most the
   potential at its start, and every retry counter stays within the budget.
   */
  lemma {:induction false} ReportsAreBounded(s: Sched, ops: seq<Op>)
    requires Safe(s) && Tracked(s) && AllLegit(s, ops) && forall i :: 0 <= i < |ops| ==> Confirmed(ops[i])
    ensures var s' := RunFrom(s, ops);
            && Safe(s') && Tracked(s')
            && |s.popped| <= |s'.popped|
            && |ops| + (|s'.popped| - |s.popped|) + Potential(s') <= Potential(s)
  {
    RunPops(s, ops);
    if ops != [] {
      var l := ops[..|ops| - 1];
      ReportsAreBounded(s, l);
      var s1 := RunFrom(s, l);
      StepKeepsSafe(s1, ops[|ops| - 1]);
      assert Confirmed(ops[|ops| - 1]);
      ReportProgress(s1, ops[|ops| - 1]);
    }
  }

  // ---------------------------------------------------------------- draining

  lemma {:induction false} DispatchPops(s: Sched, t: string, refused: set<nat>, now: int)
    ensures |DispatchPending(s, t, refused, now).popped| >= |s.popped|
    decreases |PendingOf(s, t)|
  {
    if CanPop(s.d, t) {
      PendingShrinks(s, t, refused, now);
      DispatchPops(PopStep(s, t, refused, now), t, refused, now);
    }
  }

  lemma FinishPops(s: Sched, k: Key, env: Env)
    ensures |Finish(s, k, env).popped| >= |s.popped| && |FinishAndLeak(s, k).popped| >= |s.popped|
  {
    if env.resolved.Some? {
      var s1 := Closed(s, k);
      DispatchPops(s1.(d := Released(s1.d, env.resolved.value)), env.resolved.value, env.refused, env.now);
    }
    hide DispatchPending, Released, EntryWithKey;
  }

  lemma StepPops(s: Sched, op: Op)
    ensures |Apply(s, op).popped| >= |s.popped|
  {
    if op.Enqueue? {
      DispatchPops(AfterEnqueue(s, op.turn), op.turn.taskType, op.refused, op.now);
    } else {
      FinishPops(s, op.k, op.env);
      FinishPops(s.(times := s.times[op.k := op.env.now]), op.k, op.env);
    }
    hide DispatchPending, Finish, FinishAndLeak;
  }

  lemma {:induction false} RunPops(s: Sched, ops: seq<Op>)
    ensures |RunFrom(s, ops).popped| >= |s.popped|
  {
    if ops != [] {
      RunPops(s, ops[..|ops| - 1]);
      StepPops(RunFrom(s, ops[..|ops| - 1]), ops[|ops| - 1]);
      hide Apply;
    }
  }

  /** A run of confirmed reports that uses up the potential with its reports and pops leaves nothing out and nothing waiting. */
  lemma EnoughReportsDrain(s: Sched, ops: seq<Op>)
    requires Safe(s) && Tracked(s) && AllLegit(s, ops) && forall i :: 0 <= i < |ops| ==> Confirmed(ops[i])
    requires |ops| + (|RunFrom(s, ops).popped| - |s.popped|) >= Potential(s)
    ensures RunFrom(s, ops).dispatched == {} && Waiting(RunFrom(s, ops)) == {}
  {
    hide Safe, Tracked, AllLegit, Potential, RunFrom, Waiting, Confirmed;
    ReportsAreBounded(s, ops);
    PotentialBounds(RunFrom(s, ops));
  }

  /** The report that a dispatched turn is done, confirmed by the log and with its type named. */
  function DoneReport(e: PriEntry): Op {
    Done(KeyOf(e), Env(true, true, true, Some(e.turn.taskType), {}, 0))
  }

  /** A confirmed, legitimate report is possible exactly as long as some turn is out. */
  lemma ReportPossibleIff(s: Sched)
    requires Tracked(s)
    ensures s.dispatched != {} <==> exists op :: Confirmed(op) && Legit(s, op)
  {
    if s.dispatched != {} {
      var e :| e in s.dispatched;
      HolderIsUnique(s, e);
      assert Confirmed(DoneReport(e)) && Legit(s, DoneReport(e));
    }
    if op :| Confirmed(op) && Legit(s, op) {
      assert Holder(s, op.k).value in s.dispatched;
    }
  }

  /**
   A run that cannot go on has drained: once no confirmed report is possible, nothing is out, and every
   type that has not leaked all its slots has an empty queue.
   */
  lemma StuckMeansDrained(s: Sched, ops: seq<Op>)
    requires Safe(s) && Tracked(s) && AllLegit(s, ops) && forall i :: 0 <= i < |ops| ==> Confirmed(ops[i])
    requires forall op :: Confirmed(op) ==> !Legit(RunFrom(s, ops), op)
    ensures RunFrom(s, ops).dispatched == {}
    ensures forall t :: LeakedOf(RunFrom(s, ops), t) < RunFrom(s, ops).d.maxConcurrent ==> PendingOf(RunFrom(s, ops), t) == {}
    ensures (forall t :: LeakedOf(RunFrom(s, ops), t) < RunFrom(s, ops).d.maxConcurrent) ==>
              forall e | e in RunFrom(s, ops).enqueued :: e in RunFrom(s, ops).popped
  {
    hide Safe, Tracked, AllLegit, Potential, RunFrom, Confirmed, Legit;
    ReportsAreBounded(s, ops);
    ReportPossibleIff(RunFrom(s, ops));
    QuiescentQueuesAreEmpty(RunFrom(s, ops));
  }

  ghost predicate AllConfirmed(ops: seq<Op>) {
    forall i :: 0 <= i < |ops| ==> Confirmed(ops[i])
  }

  /** `rest` goes on from where `[first]` leads. */
  lemma {:induction false} RunFromCons(s: Sched, first: Op, rest: seq<Op>)
    ensures RunFrom(s, [first] + rest) == RunFrom(Apply(s, first), rest)
    ensures AllLegit(s, [first] + rest) <==> Legit(s, first) && AllLegit(Apply(s, first), rest)
  {
    var ops := [first] + rest;
    hide Apply, Legit;
    if rest == [] {
      assert ops == [first] && ops[..0] == [];
      assert RunFrom(s, ops[..0]) == s && AllLegit(s, ops[..0]);
    } else {
      RunFromCons(s, first, rest[..|rest| - 1]);
      assert ops[..|ops| - 1] == [first] + rest[..|rest| - 1];
    }
  }

  /** Reporting a turn that is out as done lowers the potential and leaks nothing. */
  lemma DoneStep(s: Sched, e: PriEntry)
    requires Safe(s) && Tracked(s) && e in s.dispatched
    ensures var op := DoneReport(e); var s' := Apply(s, op);
            && Legit(s, op) && Confirmed(op) && Safe(s') && Tracked(s')
            && 0 <= Potential(s') + |s'.popped| < Potential(s) + |s.popped|
            && (forall t :: LeakedOf(s', t) == LeakedOf(s, t))
  {
    var op := DoneReport(e);
    HolderIsUnique(s, e);
    forall t ensures LeakedOf(Apply(s, op), t) == LeakedOf(s, t) {
      LeaksExactlyIff(s, op, t);
    }
    hide Safe, Tracked, Potential, Apply, LeakedOf;
    StepKeepsSafe(s, op);
    ReportProgress(s, op);
    PotentialBounds(Apply(s, op));
  }

  /** A run of confirmed reports that leaks nothing and leaves nothing out, nor waiting beside a slot that has not leaked. */
  ghost predicate Drains(s: Sched, ops: seq<Op>) {
    var s' := RunFrom(s, ops);
    && AllLegit(s, ops) && AllConfirmed(ops)
    && s'.dispatched == {}
    && (forall t :: LeakedOf(s', t) == LeakedOf(s, t))
    && (forall t :: LeakedOf(s', t) < s'.d.maxConcurrent ==> PendingOf(s', t) == {})
  }

  lemma DrainsCons(s: Sched, op: Op, rest: seq<Op>)
    requires Legit(s, op) && Confirmed(op) && Drains(Apply(s, op), rest)
    requires forall t :: LeakedOf(Apply(s, op), t) == LeakedOf(s, t)
    ensures Drains(s, [op] + rest)
  {
    RunFromCons(s, op, rest);
    hide RunFrom, AllLegit, Apply, Legit, LeakedOf, PendingOf, Confirmed;
  }

  /** From every state that a legitimate run with fresh keys reaches, some run drains. */
  lemma {:induction false} CanDrain(s: Sched) returns (ops: seq<Op>)
    requires Safe(s) && Tracked(s)
    ensures Drains(s, ops)
    decreases Potential(s) + |s.popped|
  {
    PotentialBounds(s);
    if s.dispatched == {} {
      ops := [];
      QuiescentQueuesAreEmpty(s);
    } else {
      hide Safe, Tracked, Potential, Apply, Legit, LeakedOf, Confirmed, Drains;
      var e :| e in s.dispatched;
      DoneStep(s, e);
      var rest := CanDrain(Apply(s, DoneReport(e)));
      DrainsCons(s, DoneReport(e), rest);
      ops := [DoneReport(e)] + rest;
    }
  }

  /** A new turn brings a key that no waiting or dispatched turn has. */
  ghost predicate FreshKey(s: Sched, op: Op) {
    op.Enqueue? ==> forall e | e in Waiting(s) + s.dispatched :: KeyOf(e) != Key(op.turn.taskId, op.turn.turnId)
  }

  ghost predicate AllFresh(s: Sched, ops: seq<Op>) {
    ops != [] ==> AllFresh(s, ops[..|ops| - 1]) && FreshKey(RunFrom(s, ops[..|ops| - 1]), ops[|ops| - 1])
  }

  lemma EnqueueKeepsTracked(s: Sched, turn: QueuedTurn, refused: set<nat>, now: int)
    requires History(s) && Tracked(s) && FreshKey(s, Enqueue(turn, refused, now))
    ensures Tracked(EnqueueAndDispatch(s, turn, refused, now))
  {
    var entry, s1 := PriEntry(turn.priority, s.d.nextSeq, turn), AfterEnqueue(s, turn);
    EnqueueKeepsHistory(s, turn);
    assert entry !in s.enqueued && entry !in s.popped;
    assert Waiting(s1) == Waiting(s) + {entry};
    assert Tracked(s1);
    DispatchProgress(s1, turn.taskType, refused, now);
  }

  lemma StepKeepsTracked(s: Sched, op: Op)
    requires Safe(s) && Tracked(s) && Legit(s, op) && FreshKey(s, op)
    ensures Tracked(Apply(s, op))
  {
    if op.Enqueue? {
      EnqueueKeepsTracked(s, op.turn, op.refused, op.now);
    } else if Confirmed(op) {
      ReportProgress(s, op);
    } else {
      TouchClock(s, op.k, op.env.now);
    }
  }

  lemma {:induction false} DispatchInBudget(s: Sched, t: string, refused: set<nat>, now: int)
    requires InBudget(s)
    ensures var s' := DispatchPending(s, t, refused, now);
            InBudget(s') && s'.maxAttempts == s.maxAttempts
    decreases |PendingOf(s, t)|
  {
    if CanPop(s.d, t) {
      PendingShrinks(s, t, refused, now);
      DispatchInBudget(PopStep(s, t, refused, now), t, refused, now);
    }
  }

  lemma FinishInBudget(s: Sched, k: Key, env: Env)
    requires InBudget(s)
    ensures InBudget(Finish(s, k, env)) && Finish(s, k, env).maxAttempts == s.maxAttempts
    ensures InBudget(FinishAndLeak(s, k)) && FinishAndLeak(s, k).maxAttempts == s.maxAttempts
  {
    if env.resolved.Some? {
      var s1 := Closed(s, k);
      DispatchInBudget(s1.(d := Released(s1.d, env.resolved.value)), env.resolved.value, env.refused, env.now);
    }
    hide DispatchPending, Released, EntryWithKey;
  }

  lemma StepInBudget(s: Sched, op: Op)
    requires InBudget(s)
    ensures InBudget(Apply(s, op)) && Apply(s, op).maxAttempts == s.maxAttempts
  {
    match op {
      case Enqueue(turn, refused, now) =>
        DispatchInBudget(AfterEnqueue(s, turn), turn.taskType, refused, now);
      case Reclaim(k, env) =>
        FinishInBudget(s.(times := s.times[k := env.now]), k, env);
      case _ =>
        FinishInBudget(s, op.k, op.env);
    }
    hide DispatchPending, Finish, FinishAndLeak;
  }

  /** In every run whatever, each retry counter stays between zero and the budget. */
  lemma {:induction false} CountersStayInBudget(limit: nat, maxAttempts: int, ops: seq<Op>)
    ensures var s := RunFrom(Initial(limit, maxAttempts), ops);
            && s.maxAttempts == maxAttempts
            && forall k | k in s.attempts :: 0 <= s.attempts[k] <= if maxAttempts < 0 then 0 else maxAttempts
  {
    if ops != [] {
      var l := ops[..|ops| - 1];
      CountersStayInBudget(limit, maxAttempts, l);
      StepInBudget(RunFrom(Initial(limit, maxAttempts), l), ops[|ops| - 1]);
      hide Apply;
    }
  }

  /**
   In every run of reports about turns that are out, and of turns with fresh keys, the watchdog's clock
   map lists exactly the turns that are out.
   */
  lemma {:induction false} ClockMapIsExact(limit: nat, maxAttempts: int, ops: seq<Op>)
    requires AllLegit(Initial(limit, maxAttempts), ops) && AllFresh(Initial(limit, maxAttempts), ops)
    ensures var s := RunFrom(Initial(limit, maxAttempts), ops);
            && Safe(s) && Tracked(s)
            && (forall k :: k in s.times <==> HasKey(s.dispatched, k))
  {
    var s0 := Initial(limit, maxAttempts);
    if ops == [] {
      InitialIsSafe(limit, maxAttempts);
      assert Waiting(s0) == {};
    } else {
      ClockMapIsExact(limit, maxAttempts, ops[..|ops| - 1]);
      var s := RunFrom(s0, ops[..|ops| - 1]);
      StepKeepsSafe(s, ops[|ops| - 1]);
      StepKeepsTracked(s, ops[|ops| - 1]);
    }
  }

  /** Two turns of the same key are out, and everything else is quiet. */
  ghost predicate Twins(s: Sched, x: PriEntry, y: PriEntry) {
    && Safe(s) && x != y && KeyOf(x) == KeyOf(y) && x.turn.taskType == y.turn.taskType
    && s.dispatched == {x, y} && PendingOf(s, x.turn.taskType) == {}
  }

  /** Nothing is out, and the type has no waiting turn and at least two free slots. */
  ghost predicate RoomForTwo(s: Sched, t: string) {
    Safe(s) && s.dispatched == {} && PendingOf(s, t) == {} && InFlightOf(s, t) + 2 <= s.d.maxConcurrent
  }

  lemma EnqueuedTwice(s: Sched, turn: QueuedTurn, now: int) returns (x: PriEntry, y: PriEntry)
    requires RoomForTwo(s, turn.taskType)
    ensures x.turn == turn && y.turn == turn
    ensures Twins(EnqueueAndDispatch(EnqueueAndDispatch(s, turn, {}, now), turn, {}, now), x, y)
  {
    hide Safe, EnqueueAndDispatch;
    OneMoreOut(s, turn, now);
    var s1 := EnqueueAndDispatch(s, turn, {}, now);
    OneMoreOut(s1, turn, now);
    x, y := PriEntry(turn.priority, s.d.nextSeq, turn), PriEntry(turn.priority, s1.d.nextSeq, turn);
  }

  lemma OneTwinDone(s: Sched, x: PriEntry, y: PriEntry)
    requires Twins(s, x, y)
    ensures var s' := Apply(s, DoneReport(x));
            Legit(s, DoneReport(x)) && HasKey(s'.dispatched, KeyOf(x)) && KeyOf(x) !in s'.times
  {
    var k, t := KeyOf(x), x.turn.taskType;
    assert x in s.dispatched && HasKey(s.dispatched, k);
    var s1 := Closed(s, k);
    assert (x in s1.dispatched || y in s1.dispatched) && k !in s1.times;
    var s2 := s1.(d := Released(s1.d, t));
    assert !CanPop(s2.d, t) && DispatchPending(s2, t, {}, 0) == s2;
    hide Safe;
  }

  /**
   With a key that is in use, which the code does not refuse, the clock map fails: enqueue a turn twice
   and report it done once, and a turn is out that no watchdog will ever find stale.
   */
  lemma ReusedKeyLosesClock(limit: nat, maxAttempts: int, turn: QueuedTurn, now: int)
    requires limit >= 2
    ensures var ops := [Enqueue(turn, {}, now), Enqueue(turn, {}, now), DoneReport(PriEntry(turn.priority, 0, turn))];
            var s, k := RunFrom(Initial(limit, maxAttempts), ops), Key(turn.taskId, turn.turnId);
            AllLegit(Initial(limit, maxAttempts), ops) && HasKey(s.dispatched, k) && k !in s.times
  {
    var s0, op := Initial(limit, maxAttempts), Enqueue(turn, {}, now);
    var done := DoneReport(PriEntry(turn.priority, 0, turn));
    InitialIsSafe(limit, maxAttempts);
    assert RoomForTwo(s0, turn.taskType);
    var x, y := EnqueuedTwice(s0, turn, now);
    assert AllLegit(s0, []) && RunFrom(s0, []) == s0 && Legit(s0, op) && Legit(Apply(s0, op), op);
    assert DoneReport(x) == done && [] + [op, op] == [op, op] && [op, op] + [done] == [op, op, done];
    var s2 := Apply(Apply(s0, op), op);
    assert Twins(s2, x, y);
    hide Apply, RunFrom, AllLegit, Twins, Legit, Initial, RoomForTwo;
    TwoMoreOps(s0, [], op, op);
    OneTwinDone(s2, x, y);
    OneMoreOp(s0, [op, op], done);
  }

  /** Whoever goes out in a dispatch round gets the round's time as its clock. */
  lemma {:induction false} DispatchSetsClocks(s: Sched, t: string, refused: set<nat>, now: int, k: Key)
    ensures var s' := DispatchPending(s, t, refused, now);
            k in s'.times ==> (k in s.times && s'.times[k] == s.times[k]) || s'.times[k] == now
    decreases |PendingOf(s, t)|
  {
    if CanPop(s.d, t) {
      PendingShrinks(s, t, refused, now);
      DispatchSetsClocks(PopStep(s, t, refused, now), t, refused, now, k);
    }
  }

  /** A turn that the watchdog has reclaimed and sent again is left alone until its lease has run out anew. */
  lemma ReclaimRefreshesClock(s: Sched, e: PriEntry, env: Env, lease: int, later: int)
    requires Steady(s) && Holder(s, KeyOf(e)) == Some(e) && Resent(env)
    requires AttemptsOf(s.attempts, KeyOf(e)) < s.maxAttempts
    ensures var s' := ReclaimOne(s, KeyOf(e), env);
            KeyOf(e) in s'.times && (KeyOf(e) in Stale(s', lease, later) <==> later - env.now > lease)
  {
    var s1 := s.(times := s.times[KeyOf(e) := env.now]);
    SteadyFrame(s, s1);
    assert Holder(s1, KeyOf(e)) == Some(e);
    ErrorRetriesIff(s1, KeyOf(e), AgentUnresponsive, env);
    hide Steady, HandleError;
  }

  // ---------------------------------------------------------------- the watchdog's round

  lemma {:induction false} DispatchedStays(s: Sched, t: string, refused: set<nat>, now: int, e: PriEntry)
    requires History(s) && e in s.dispatched
    ensures e in DispatchPending(s, t, refused, now).dispatched
    decreases |PendingOf(s, t)|
  {
    if CanPop(s.d, t) {
      TopFacts(s, t);
      PendingShrinks(s, t, refused, now);
      PopStepKeepsHistory(s, t, refused, now);
      assert e in PopStep(s, t, refused, now).dispatched;
      hide History, PopStep, CanPop;
      DispatchedStays(PopStep(s, t, refused, now), t, refused, now, e);
    }
  }

  lemma FinishSparesOthers(s: Sched, k: Key, env: Env, e: PriEntry)
    requires History(s) && e in s.dispatched && KeyOf(e) != k
    ensures e in Finish(s, k, env).dispatched && e in FinishAndLeak(s, k).dispatched
  {
    var s1 := Closed(s, k);
    ClosedSlots(s, k);
    if env.resolved.Some? {
      ReleasedHistory(s1, env.resolved.value);
      DispatchedStays(s1.(d := Released(s1.d, env.resolved.value)), env.resolved.value, env.refused, env.now, e);
    }
    hide History, DispatchPending, Released;
  }

  lemma ReclaimSparesOthers(s: Sched, k: Key, env: Env, e: PriEntry)
    requires Safe(s) && e in s.dispatched && KeyOf(e) != k
    ensures e in ReclaimOne(s, k, env).dispatched
  {
    var s1 := s.(times := s.times[k := env.now]);
    SafeFrame(s, s1);
    FinishSparesOthers(s1, k, env, e);
    hide Safe, Finish, FinishAndLeak;
  }

  function RoundOps(keys: seq<Key>, world: Key -> Env): seq<Op> {
    seq(|keys|, i requires 0 <= i < |keys| => Reclaim(keys[i], world(keys[i])))
  }

  /** Whenever the store names the type of a turn that is out, it names the right one. */
  ghost predicate KnowsTypes(s: Sched, world: Key -> Env) {
    forall e | e in s.dispatched && world(KeyOf(e)).resolved.Some? :: world(KeyOf(e)).resolved.value == e.turn.taskType
  }

  lemma HolderIsUnique(s: Sched, e: PriEntry)
    requires Tracked(s) && e in s.dispatched
    ensures Holder(s, KeyOf(e)) == Some(e)
  {
  }

  lemma ReclaimStep(s: Sched, e: PriEntry, env: Env)
    requires Safe(s) && Tracked(s) && e in s.dispatched
    requires env.resolved.Some? ==> env.resolved.value == e.turn.taskType
    ensures var k := KeyOf(e);
            && Legit(s, Reclaim(k, env)) && Apply(s, Reclaim(k, env)) == ReclaimOne(s, k, env)
            && Safe(ReclaimOne(s, k, env)) && Tracked(ReclaimOne(s, k, env))
            && (forall x | x in s.dispatched && KeyOf(x) != k :: x in ReclaimOne(s, k, env).dispatched)
  {
    HolderIsUnique(s, e);
    hide Safe, Tracked, Holder, ReclaimOne;
    StepKeepsSafe(s, Reclaim(KeyOf(e), env));
    StepKeepsTracked(s, Reclaim(KeyOf(e), env));
    forall x | x in s.dispatched && KeyOf(x) != KeyOf(e) ensures x in ReclaimOne(s, KeyOf(e), env).dispatched {
      ReclaimSparesOthers(s, KeyOf(e), env, x);
    }
  }

  /** Whoever was out and is not among the keys still is. */
  ghost predicate Spares(s: Sched, s': Sched, keys: seq<Key>) {
    forall e | e in s.dispatched && KeyOf(e) !in keys :: e in s'.dispatched
  }

  lemma SparesMore(s: Sched, s1: Sched, s2: Sched, keys: seq<Key>)
    requires keys != [] && Spares(s, s1, keys[..|keys| - 1])
    requires forall x | x in s1.dispatched && KeyOf(x) != keys[|keys| - 1] :: x in s2.dispatched
    ensures Spares(s, s2, keys)
  {
    forall x | x in s.dispatched && KeyOf(x) !in keys ensures x in s2.dispatched {
      assert keys[|keys| - 1] in keys && forall j :: j in keys[..|keys| - 1] ==> j in keys;
    }
  }

  lemma LastIsNew(keys: seq<Key>)
    requires keys != [] && Distinct(keys)
    ensures Distinct(keys[..|keys| - 1]) && keys[|keys| - 1] !in keys[..|keys| - 1]
  {
  }

  lemma RoundOpsSnoc(keys: seq<Key>, world: Key -> Env)
    requires keys != []
    ensures var ops, k := RoundOps(keys, world), keys[|keys| - 1];
            && |ops| == |keys| && ops[|ops| - 1] == Reclaim(k, world(k))
            && ops[..|ops| - 1] == RoundOps(keys[..|keys| - 1], world)
  {
  }

  /** What a round has achieved once the given keys are done. */
  ghost predicate RoundDone(s: Sched, keys: seq<Key>, world: Key -> Env) {
    var s', ops := ReclaimAll(s, keys, world), RoundOps(keys, world);
    AllLegit(s, ops) && RunFrom(s, ops) == s' && Safe(s') && Tracked(s') && Spares(s, s', keys)
  }

  lemma RunSnoc(s: Sched, ops: seq<Op>)
    requires ops != []
    ensures RunFrom(s, ops) == Apply(RunFrom(s, ops[..|ops| - 1]), ops[|ops| - 1])
    ensures AllLegit(s, ops) <==> AllLegit(s, ops[..|ops| - 1]) && Legit(RunFrom(s, ops[..|ops| - 1]), ops[|ops| - 1])
  {
    hide Apply, Legit;
  }

  lemma ReclaimAllSnoc(s: Sched, keys: seq<Key>, world: Key -> Env)
    requires keys != []
    ensures ReclaimAll(s, keys, world)
         == ReclaimOne(ReclaimAll(s, keys[..|keys| - 1], world), keys[|keys| - 1], world(keys[|keys| - 1]))
  {
    hide ReclaimOne;
  }

  lemma RoundStep(s: Sched, keys: seq<Key>, world: Key -> Env, e: PriEntry)
    requires keys != [] && RoundDone(s, keys[..|keys| - 1], world)
    requires e in ReclaimAll(s, keys[..|keys| - 1], world).dispatched && KeyOf(e) == keys[|keys| - 1]
    requires world(KeyOf(e)).resolved.Some? ==> world(KeyOf(e)).resolved.value == e.turn.taskType
    ensures RoundDone(s, keys, world)
  {
    var before, k := keys[..|keys| - 1], keys[|keys| - 1];
    var s1 := ReclaimAll(s, before, world);
    RoundOpsSnoc(keys, world);
    RunSnoc(s, RoundOps(keys, world));
    ReclaimAllSnoc(s, keys, world);
    hide Safe, Tracked, ReclaimOne, Legit, Apply, RoundOps, Spares, KeyOf, RunFrom, AllLegit, ReclaimAll;
    ReclaimStep(s1, e, world(k));
    SparesMore(s, s1, ReclaimOne(s1, k, world(k)), keys);
  }

  /**
   A round over turns that are out is a legitimate run: reclaiming one turn never takes away another
   one that is still to be reclaimed.
   */
  lemma {:induction false} RoundIsLegit(s: Sched, keys: seq<Key>, world: Key -> Env)
    requires Safe(s) && Tracked(s) && KnowsTypes(s, world)
    requires Distinct(keys) && forall i :: 0 <= i < |keys| ==> HasKey(s.dispatched, keys[i])
    ensures AllLegit(s, RoundOps(keys, world))
    ensures RunFrom(s, RoundOps(keys, world)) == ReclaimAll(s, keys, world)
    ensures Safe(ReclaimAll(s, keys, world)) && Tracked(ReclaimAll(s, keys, world))
    ensures Spares(s, ReclaimAll(s, keys, world), keys)
  {
    assert RoundDone(s, keys, world) by {
      RoundIsDone(s, keys, world);
    }
    hide Safe, Tracked, AllLegit, RunFrom, ReclaimAll, RoundOps, Spares;
  }

  lemma {:induction false} RoundIsDone(s: Sched, keys: seq<Key>, world: Key -> Env)
    requires Safe(s) && Tracked(s) && KnowsTypes(s, world)
    requires Distinct(keys) && forall i :: 0 <= i < |keys| ==> HasKey(s.dispatched, keys[i])
    ensures RoundDone(s, keys, world)
  {
    if keys != [] {
      var before, k := keys[..|keys| - 1], keys[|keys| - 1];
      LastIsNew(keys);
      var e :| e in s.dispatched && KeyOf(e) == k;
      hide Safe, Tracked, Distinct, KeyOf, ReclaimAll, AllLegit, RunFrom, RoundOps;
      RoundIsDone(s, before, world);
      assert e in ReclaimAll(s, before, world).dispatched;
      hide RoundDone, Spares;
      RoundStep(s, keys, world, e);
    }
  }

  /**
   The watchdog's round over its stale turns, in any order, is a legitimate run of reclaims, so
   everything proved of such runs holds of it.
   */
  lemma WatchdogRoundIsLegit(s: Sched, lease: int, now: int, order: seq<Key>, world: Key -> Env)
    requires Safe(s) && Tracked(s) && KnowsTypes(s, world)
    requires multiset(order) == multiset(Stale(s, lease, now))
    ensures AllLegit(s, RoundOps(order, world))
    ensures RunFrom(s, RoundOps(order, world)) == ReclaimAll(s, order, world)
    ensures Safe(ReclaimAll(s, order, world)) && Tracked(ReclaimAll(s, order, world))
  {
    forall i | 0 <= i < |order| ensures HasKey(s.dispatched, order[i]) {
      assert order[i] in multiset(order);
      assert order[i] in s.times;
    }
    OnceEach(order, Stale(s, lease, now));
    RoundIsLegit(s, order, world);
  }

  lemma OnceEach(order: seq<Key>, keys: set<Key>)
    requires multiset(order) == multiset(keys)
    ensures Distinct(order)
  {
    forall i, j | 0 <= i < j < |order| ensures order[i] != order[j] {
      assert order == order[..i] + [order[i]] + order[i + 1..j] + [order[j]] + order[j + 1..];
      assert multiset(order)[order[i]] <= 1;
    }
  }

  // ---------------------------------------------------------------- leaks

  lemma {:induction false} LeaksUntouched(s: Sched, t: string, refused: set<nat>, now: int)
    ensures DispatchPending(s, t, refused, now).leaked == s.leaked
    decreases |PendingOf(s, t)|
  {
    if CanPop(s.d, t) {
      PendingShrinks(s, t, refused, now);
      LeaksUntouched(PopStep(s, t, refused, now), t, refused, now);
    }
  }

  /** The error path loses the slot: no start to retry from, a retry that cannot be sent, or a type nobody can name. */
  predicate ErrorLeaks(s: Sched, k: Key, reason: FailureReason, env: Env) {
    env.ok &&
    (|| !env.hasStart
     || (RetryDue(s, k, reason) && !env.redispatched)
     || (!RetryDue(s, k, reason) && env.resolved.None?))
  }

  /** The handler loses the slot of the turn it settles. */
  predicate Leaks(s: Sched, op: Op) {
    match op
    case Enqueue(_, _, _) => false
    case Done(_, env) => env.ok && env.resolved.None?
    case Timeout(_, env) => env.resolved.None?
    case Error(k, reason, env) => ErrorLeaks(s, k, reason, env)
    case Reclaim(k, env) => ErrorLeaks(s, k, AgentUnresponsive, env)
  }

  /** The slot of type `t` that a report loses. */
  ghost function LostSlot(s: Sched, op: Op, t: string): nat {
    if Leaks(s, op) && Holder(s, op.k).Some? && Holder(s, op.k).value.turn.taskType == t then 1 else 0
  }

  lemma FinishLeaks(s: Sched, k: Key, env: Env, t: string)
    requires Holder(s, k).Some?
    ensures var here := if Holder(s, k).value.turn.taskType == t then 1 else 0;
            && LeakedOf(Finish(s, k, env), t) == LeakedOf(s, t) + (if env.resolved.None? then here else 0)
            && LeakedOf(FinishAndLeak(s, k), t) == LeakedOf(s, t) + here
  {
    if env.resolved.Some? {
      var s1 := Settle(Forget(s, k), k);
      LeaksUntouched(s1.(d := Released(s1.d, env.resolved.value)), env.resolved.value, env.refused, env.now);
    }
    hide DispatchPending, Released, EntryWithKey;
  }

  lemma ErrorLeakCount(s: Sched, k: Key, reason: FailureReason, env: Env, t: string)
    requires Holder(s, k).Some?
    ensures LeakedOf(HandleError(s, k, reason, env), t) == LeakedOf(s, t) +
            if ErrorLeaks(s, k, reason, env) && Holder(s, k).value.turn.taskType == t then 1 else 0
  {
    FinishLeaks(s, k, env, t);
    DecisionMeaning(s, k, reason);
    hide Finish, FinishAndLeak, EntryWithKey, RetryDue, Decide;
  }

  /**
   When a finished turn does not give its slot back: a report adds one to the leaks of its turn's type
   if and only if it is one of the leaking cases, and changes no other count.
   */
  lemma LeaksExactlyIff(s: Sched, op: Op, t: string)
    requires Legit(s, op)
    ensures LeakedOf(Apply(s, op), t) == LeakedOf(s, t) + LostSlot(s, op, t)
  {
    match op {
      case Enqueue(turn, refused, now) =>
        LeaksUntouched(AfterEnqueue(s, turn), turn.taskType, refused, now);
      case Error(k, reason, env) =>
        ErrorLeakCount(s, k, reason, env, t);
        hide HandleError, EntryWithKey, ErrorLeaks;
      case Reclaim(k, env) =>
        ErrorLeakCount(s.(times := s.times[k := env.now]), k, AgentUnresponsive, env, t);
        hide HandleError, EntryWithKey;
      case _ =>
        FinishLeaks(s, op.k, op.env, t);
        hide Finish, FinishAndLeak, EntryWithKey;
    }
  }

  ghost function LostSlots(s: Sched, ops: seq<Op>, t: string): nat {
    if ops == [] then 0
    else LostSlots(s, ops[..|ops| - 1], t) + LostSlot(RunFrom(s, ops[..|ops| - 1]), ops[|ops| - 1], t)
  }

  /** Over a run, the leaks of a type are the leaking reports about its turns. */
  lemma {:induction false} LeaksAreCounted(s: Sched, ops: seq<Op>, t: string)
    requires AllLegit(s, ops)
    ensures LeakedOf(RunFrom(s, ops), t) == LeakedOf(s, t) + LostSlots(s, ops, t)
  {
    if ops != [] {
      LeaksAreCounted(s, ops[..|ops| - 1], t);
      hide Apply, LostSlot, Legit;
      LeaksExactlyIff(RunFrom(s, ops[..|ops| - 1]), ops[|ops| - 1], t);
    }
  }

  // ---------------------------------------------------------------- starvation

  /** Nothing of type `t` was popped in between. */
  ghost predicate PoppedElsewhere(s: Sched, s': Sched, t: string) {
    forall e | e in s'.popped && e.turn.taskType == t :: e in s.popped
  }

  /** A dispatch round of one type pops turns of that type only. */
  lemma {:induction false} PopsOwnType(s: Sched, u: string, refused: set<nat>, now: int, t: string)
    requires History(s) && u != t
    ensures PoppedElsewhere(s, DispatchPending(s, u, refused, now), t)
    decreases |PendingOf(s, u)|
  {
    if CanPop(s.d, u) {
      TopFacts(s, u);
      PendingShrinks(s, u, refused, now);
      PopStepKeepsHistory(s, u, refused, now);
      var s1 := PopStep(s, u, refused, now);
      assert s1.popped == s.popped + [Top(PendingOf(s, u))];
      hide History, PopStep, CanPop, Top;
      PopsOwnType(s1, u, refused, now, t);
    }
  }

  /** Every slot of the type is in use, whatever for. */
  predicate Full(s: Sched, t: string) { InFlightOf(s, t) == s.d.maxConcurrent }

  /** The report ends its turn and gives back a slot of `t`, whoever holds it. */
  predicate Frees(s: Sched, op: Op, t: string) {
    !op.Enqueue? && Finishes(s, op) && op.env.resolved == Some(t)
  }

  /** No turn of `t` was popped, no slot of it moved, and whoever waited for it still does. */
  ghost predicate Unmoved(s: Sched, s': Sched, t: string) {
    && PendingOf(s, t) <= PendingOf(s', t)
    && InFlightOf(s', t) == InFlightOf(s, t)
    && s'.d.maxConcurrent == s.d.maxConcurrent
    && PoppedElsewhere(s, s', t)
  }

  lemma DispatchElsewhere(s: Sched, u: string, refused: set<nat>, now: int, t: string)
    requires History(s) && u != t
    ensures Unmoved(s, DispatchPending(s, u, refused, now), t)
  {
    DispatchPendingKeeps(s, u, refused, now);
    PopsOwnType(s, u, refused, now, t);
    hide History, Slack, Capped, CanPop, DispatchPending, PoppedElsewhere;
  }

  lemma ClosedElsewhere(s: Sched, k: Key, u: string, t: string)
    requires History(s) && u != t
    ensures var s2 := Closed(s, k).(d := Released(s.d, u));
            History(s2) && Unmoved(s, s2, t)
    ensures Unmoved(s, FinishAndLeak(s, k), t)
  {
    ClosedSlots(s, k);
    ReleasedHistory(Closed(s, k), u);
    hide History, EntryWithKey, Slack, Settle, Forget;
    assert Closed(s, k).d == s.d;
  }

  lemma FinishElsewhere(s: Sched, k: Key, env: Env, t: string)
    requires History(s)
    ensures env.resolved != Some(t) ==> Unmoved(s, Finish(s, k, env), t)
    ensures Unmoved(s, FinishAndLeak(s, k), t)
  {
    assert Unmoved(s, FinishAndLeak(s, k), t) by {
      hide History, EntryWithKey;
    }
    hide History, EntryWithKey, Released;
    if env.resolved.Some? && env.resolved != Some(t) {
      var u := env.resolved.value;
      ClosedElsewhere(s, k, u, t);
      DispatchElsewhere(Closed(s, k).(d := Released(s.d, u)), u, env.refused, env.now, t);
      hide DispatchPending;
    }
  }

  lemma FullEnqueue(s: Sched, turn: QueuedTurn, refused: set<nat>, now: int, t: string)
    requires Steady(s) && Full(s, t)
    ensures Unmoved(s, EnqueueAndDispatch(s, turn, refused, now), t)
  {
    var s1 := AfterEnqueue(s, turn);
    EnqueueKeepsHistory(s, turn);
    assert Unmoved(s, s1, t);
    if turn.taskType == t {
      assert !CanPop(s1.d, t);
    } else {
      DispatchElsewhere(s1, turn.taskType, refused, now, t);
    }
  }

  lemma FullStep(s: Sched, op: Op, t: string)
    requires Steady(s) && Full(s, t) && !Frees(s, op, t)
    ensures Unmoved(s, Apply(s, op), t)
  {
    match op {
      case Enqueue(turn, refused, now) => FullEnqueue(s, turn, refused, now, t);
      case Reclaim(k, env) =>
        var s1 := s.(times := s.times[k := env.now]);
        SteadyFrame(s, s1);
        FinishElsewhere(s1, k, env, t);
        hide Finish, FinishAndLeak, History;
      case _ =>
        FinishElsewhere(s, op.k, op.env, t);
        hide Finish, FinishAndLeak, History;
    }
  }

  lemma {:induction false} DispatchKeepsPopped(s: Sched, t: string, refused: set<nat>, now: int, e: PriEntry)
    requires e in s.popped
    ensures e in DispatchPending(s, t, refused, now).popped
    decreases |PendingOf(s, t)|
  {
    if CanPop(s.d, t) {
      PendingShrinks(s, t, refused, now);
      assert e in PopStep(s, t, refused, now).popped;
      DispatchKeepsPopped(PopStep(s, t, refused, now), t, refused, now, e);
    }
  }

  lemma DispatchPopsIff(s: Sched, t: string, refused: set<nat>, now: int)
    requires History(s)
    ensures PoppedElsewhere(s, DispatchPending(s, t, refused, now), t) <==> !CanPop(s.d, t)
  {
    if CanPop(s.d, t) {
      TopFacts(s, t);
      PendingShrinks(s, t, refused, now);
      var e := Top(PendingOf(s, t));
      assert e in PopStep(s, t, refused, now).popped;
      DispatchKeepsPopped(PopStep(s, t, refused, now), t, refused, now, e);
      hide History, PopStep;
    }
  }

  lemma FreedSlotIsTaken(s: Sched, k: Key, env: Env, t: string)
    requires Steady(s) && Full(s, t) && env.resolved == Some(t)
    ensures PoppedElsewhere(s, Finish(s, k, env), t) <==> PendingOf(s, t) == {}
  {
    var s1 := Closed(s, k);
    ClosedSlots(s, k);
    var s2 := s1.(d := Released(s1.d, t));
    ReleasedHistory(s1, t);
    assert s2.popped == s.popped && (CanPop(s2.d, t) <==> PendingOf(s, t) != {});
    hide History, EntryWithKey;
    DispatchPopsIff(s2, t, env.refused, env.now);
    hide DispatchPending;
  }

  /**
   When a turn of a full type goes out: an operation pops one if and only if it is a report that ends
   its turn and names the type, and somebody waits for it.
   */
  lemma FullTypePopsIff(s: Sched, op: Op, t: string)
    requires Steady(s) && Full(s, t)
    ensures !PoppedElsewhere(s, Apply(s, op), t) <==>
            !op.Enqueue? && Finishes(s, op) && op.env.resolved == Some(t) && PendingOf(s, t) != {}
  {
    if Frees(s, op, t) {
      if op.Reclaim? {
        var s1 := s.(times := s.times[op.k := op.env.now]);
        SteadyFrame(s, s1);
        FreedSlotIsTaken(s1, op.k, op.env, t);
      } else {
        FreedSlotIsTaken(s, op.k, op.env, t);
      }
    } else {
      FullStep(s, op, t);
    }
    hide Finish, FinishAndLeak, Steady;
  }

  ghost predicate NoneFrees(s: Sched, ops: seq<Op>, t: string) {
    ops != [] ==> NoneFrees(s, ops[..|ops| - 1], t) && !Frees(RunFrom(s, ops[..|ops| - 1]), ops[|ops| - 1], t)
  }

  /** Until some report ends its turn and names a full type, no run pops a turn of it, and none that waits leaves its queue. */
  lemma {:induction false} FullTypeStarves(s: Sched, ops: seq<Op>, t: string)
    requires Steady(s) && Full(s, t) && NoneFrees(s, ops, t)
    ensures Unmoved(s, RunFrom(s, ops), t)
  {
    if ops != [] {
      FullTypeStarves(s, ops[..|ops| - 1], t);
      RunKeepsSteady(s, ops[..|ops| - 1]);
      hide Steady, Apply, Frees;
      FullStep(RunFrom(s, ops[..|ops| - 1]), ops[|ops| - 1], t);
    }
  }

  /** With every slot leaked, a report about a turn that is out cannot name the type. */
  lemma LeakedTypeIsFull(s: Sched, op: Op, t: string)
    requires Safe(s) && LeakedOf(s, t) == s.d.maxConcurrent
    ensures Full(s, t)
    ensures Legit(s, op) ==> !Frees(s, op, t) && LostSlot(s, op, t) == 0
  {
    assert Slack(s, t) == 0 && QueueOf(s.d, t).inFlight <= s.d.maxConcurrent;
    assert OutOf(s, t) == {};
    if !op.Enqueue? && Legit(s, op) {
      assert Holder(s, op.k).value !in OutOf(s, t);
    }
    hide History, WorkConserving;
  }

  /**
   Once every slot of a type has leaked, no run of reports about turns that are out ever pops a turn of
   that type again, whether it was waiting or came later, and none that waits leaves its queue.
   */
  lemma {:induction false} LeakedTypeStarves(s: Sched, ops: seq<Op>, t: string)
    requires Safe(s) && AllLegit(s, ops) && LeakedOf(s, t) == s.d.maxConcurrent
    ensures var s' := RunFrom(s, ops);
            && Safe(s') && LeakedOf(s', t) == s'.d.maxConcurrent && PendingOf(s, t) <= PendingOf(s', t)
            && (forall e | e in s'.popped && e.turn.taskType == t :: e in s.popped)
  {
    if ops != [] {
      var s1, op := RunFrom(s, ops[..|ops| - 1]), ops[|ops| - 1];
      LeakedTypeStarves(s, ops[..|ops| - 1], t);
      LeakedTypeIsFull(s1, op, t);
      StepKeepsSafe(s1, op);
      LeaksExactlyIff(s1, op, t);
      FullStep(s1, op, t);
      hide Steady, Ledger, Apply, Legit, Frees, LostSlot;
    }
  }

  /** A leaked slot comes back by mistake: in a safe state, with every slot leaked, exactly a finishing report that names the type lets a waiting turn out. */
  lemma StrayReportUnstarvesIff(s: Sched, op: Op, t: string)
    requires Safe(s) && LeakedOf(s, t) == s.d.maxConcurrent
    ensures !PoppedElsewhere(s, Apply(s, op), t) <==>
            !op.Enqueue? && Finishes(s, op) && op.env.resolved == Some(t) && PendingOf(s, t) != {}
    ensures !PoppedElsewhere(s, Apply(s, op), t) ==> !Legit(s, op) && !Ledger(Apply(s, op))
  {
    LeakedTypeIsFull(s, op, t);
    FullTypePopsIff(s, op, t);
    FreeingIsAMistake(s, op, t);
    hide Steady, Ledger, Apply, Legit, Finishes;
  }

  lemma FreeingIsAMistake(s: Sched, op: Op, t: string)
    requires Safe(s) && LeakedOf(s, t) == s.d.maxConcurrent
    ensures Frees(s, op, t) ==> !Legit(s, op) && !Ledger(Apply(s, op))
  {
    LeakedTypeIsFull(s, op, t);
    ReportBreaksLedgerIff(s, op);
    assert Slack(s, t) == 0 && OutOf(s, t) == {};
    assert forall e | e in s.dispatched && e.turn.taskType == t :: e in OutOf(s, t);
    hide Apply, Steady, Finishes, EntryWithKey;
  }

  /** The answers of a log that is reachable but holds no `turn_started` for the turn. */
  function StartMissing(now: int): Env { Env(true, false, false, None, {}, now) }

  /** The turn of this type that is enqueued as the n-th. */
  function Nth(turn: QueuedTurn, n: nat): QueuedTurn { turn.(turnId := n) }

  /** `n` times: a turn is enqueued, and fails before its start has reached the log. */
  function LeakingOps(turn: QueuedTurn, now: int, n: nat): seq<Op> {
    if n == 0 then []
    else
      LeakingOps(turn, now, n - 1)
        + [Enqueue(Nth(turn, n), {}, now), Error(Key(turn.taskId, n), AgentUnresponsive, StartMissing(now))]
  }

  lemma OneMoreOp(s: Sched, ops: seq<Op>, op: Op)
    requires AllLegit(s, ops) && Legit(RunFrom(s, ops), op)
    ensures AllLegit(s, ops + [op]) && RunFrom(s, ops + [op]) == Apply(RunFrom(s, ops), op)
  {
    assert (ops + [op])[..|ops|] == ops;
    hide Apply, Legit;
  }

  lemma TwoMoreOps(s: Sched, ops: seq<Op>, a: Op, b: Op)
    requires AllLegit(s, ops) && Legit(RunFrom(s, ops), a) && Legit(Apply(RunFrom(s, ops), a), b)
    ensures AllLegit(s, ops + [a, b])
    ensures RunFrom(s, ops + [a, b]) == Apply(Apply(RunFrom(s, ops), a), b)
  {
    hide Apply, Legit, RunFrom, AllLegit;
    OneMoreOp(s, ops, a);
    OneMoreOp(s, ops + [a], b);
    assert ops + [a] + [b] == ops + [a, b];
  }

  /** Nothing of type `t` waits, nothing at all is out, and so many slots of `t` have leaked. */
  ghost predicate QuietWithLeaks(s: Sched, t: string, n: nat) {
    Safe(s) && s.dispatched == {} && PendingOf(s, t) == {} && LeakedOf(s, t) == n
  }

  lemma OnlyTurnLeaks(s: Sched, e: PriEntry, now: int)
    requires Safe(s) && s.dispatched == {e} && PendingOf(s, e.turn.taskType) == {}
    ensures var op := Error(KeyOf(e), AgentUnresponsive, StartMissing(now));
            && Legit(s, op)
            && QuietWithLeaks(Apply(s, op), e.turn.taskType, LeakedOf(s, e.turn.taskType) + 1)
            && Apply(s, op).d.maxConcurrent == s.d.maxConcurrent
  {
    var op := Error(KeyOf(e), AgentUnresponsive, StartMissing(now));
    assert e in s.dispatched && Holder(s, KeyOf(e)) == Some(e);
    hide Safe, RetryDue;
    StepKeepsSafe(s, op);
  }

  lemma OneMoreLeak(s: Sched, turn: QueuedTurn, now: int, n: nat)
    requires QuietWithLeaks(s, turn.taskType, n) && n < s.d.maxConcurrent
    ensures var a, b := Enqueue(turn, {}, now), Error(Key(turn.taskId, turn.turnId), AgentUnresponsive, StartMissing(now));
            && Legit(s, a) && Legit(Apply(s, a), b)
            && QuietWithLeaks(Apply(Apply(s, a), b), turn.taskType, n + 1)
            && Apply(Apply(s, a), b).d.maxConcurrent == s.d.maxConcurrent
  {
    assert Slack(s, turn.taskType) == 0 && OutOf(s, turn.taskType) == {};
    OneMoreOut(s, turn, now);
    hide Safe, EnqueueAndDispatch, HandleError, QuietWithLeaks;
    OnlyTurnLeaks(EnqueueAndDispatch(s, turn, {}, now), PriEntry(turn.priority, s.d.nextSeq, turn), now);
  }

  /** The run up to here has leaked `n` slots and left nothing behind. */
  ghost predicate LeakedSoFar(s0: Sched, ops: seq<Op>, t: string, n: nat) {
    AllLegit(s0, ops) && QuietWithLeaks(RunFrom(s0, ops), t, n) && RunFrom(s0, ops).d.maxConcurrent == s0.d.maxConcurrent
  }

  lemma NothingLeakedYet(limit: nat, maxAttempts: int, t: string)
    ensures LeakedSoFar(Initial(limit, maxAttempts), [], t, 0)
  {
    InitialIsSafe(limit, maxAttempts);
    hide Safe;
  }

  lemma LeakOnce(s0: Sched, ops: seq<Op>, turn: QueuedTurn, now: int, n: nat)
    requires LeakedSoFar(s0, ops, turn.taskType, n) && n < s0.d.maxConcurrent
    ensures var a, b := Enqueue(turn, {}, now), Error(Key(turn.taskId, turn.turnId), AgentUnresponsive, StartMissing(now));
            LeakedSoFar(s0, ops + [a, b], turn.taskType, n + 1)
  {
    var a, b := Enqueue(turn, {}, now), Error(Key(turn.taskId, turn.turnId), AgentUnresponsive, StartMissing(now));
    hide QuietWithLeaks, Apply, Legit, RunFrom, AllLegit;
    OneMoreLeak(RunFrom(s0, ops), turn, now, n);
    TwoMoreOps(s0, ops, a, b);
  }

  /**
   The slots of a type can all leak: so many turns of it, each enqueued in a fresh scheduler and each
   failing before its start has reached the log, leave as many slots lost, all of them in the end.
   */
  lemma {:induction false} EverySlotCanLeak(limit: nat, maxAttempts: int, turn: QueuedTurn, now: int, n: nat)
    requires n <= Initial(limit, maxAttempts).d.maxConcurrent
    ensures LeakedSoFar(Initial(limit, maxAttempts), LeakingOps(turn, now, n), turn.taskType, n)
  {
    hide LeakedSoFar, Initial;
    if n == 0 {
      NothingLeakedYet(limit, maxAttempts, turn.taskType);
    } else {
      EverySlotCanLeak(limit, maxAttempts, turn, now, n - 1);
      LeakOnce(Initial(limit, maxAttempts), LeakingOps(turn, now, n - 1), Nth(turn, n), now, n - 1);
    }
  }

  /** A starved type is a run away: after as many such failures as there are slots, no run ever pops a turn of the type. */
  lemma StarvationIsReachable(limit: nat, maxAttempts: int, turn: QueuedTurn, now: int, more: seq<Op>)
    requires var s0 := Initial(limit, maxAttempts);
             AllLegit(RunFrom(s0, LeakingOps(turn, now, s0.d.maxConcurrent)), more)
    ensures var s0 := Initial(limit, maxAttempts);
            var s := RunFrom(s0, LeakingOps(turn, now, s0.d.maxConcurrent));
            && AllLegit(s0, LeakingOps(turn, now, s0.d.maxConcurrent))
            && forall e | e in RunFrom(s, more).popped && e.turn.taskType == turn.taskType :: e in s.popped
  {
    var n := Initial(limit, maxAttempts).d.maxConcurrent;
    EverySlotCanLeak(limit, maxAttempts, turn, now, n);
    hide RunFrom, AllLegit, Safe;
    LeakedTypeStarves(RunFrom(Initial(limit, maxAttempts), LeakingOps(turn, now, n)), more, turn.taskType);
  }
}
