/** Failure reasons and the retry budget. */
module Retry {
  datatype FailureReason =
    | AgentSpawnFailed | SessionCreateFailed | AgentProcessExited | RedoDispatchFailed | BrokerError
    | SandboxTimeout | AgentUnresponsive
    | ApplicationError | PolicyDenied | CanceledByUser
    | Unknown
  {
    predicate IsRetryable() {
      !ApplicationError? && !PolicyDenied? && !CanceledByUser?
    }
  }

  datatype Decision = RetryTurn(nextRedoCount: int) | FailTurn(budgetExhausted: bool)

  function Decide(maxAttempts: int, reason: FailureReason, current: int): Decision {
    if reason.IsRetryable() && current < maxAttempts then RetryTurn(current + 1)
    else FailTurn(reason.IsRetryable())
  }
}

/**
 The turn scheduler: the dispatch queues, the retry counters and the dispatch
 times, as changed by the orchestrator's handlers. Each handler is one atomic
 step; what the broker, the log and the task store answer is an input of the
 step.
 */
module Scheduler {
  import opened Wrappers
  import opened Dispatcher
  import opened Retry
  import Decimal
  import Text

  datatype Key = Key(taskId: string, turnId: int)

  /** The map key as the code spells it, `task:turn`. */
  function KeyText(k: Key): string {
    k.taskId + ":" + Decimal.IntText(k.turnId)
  }

  /** Distinct turns have distinct key texts, so a pair may stand for the text. */
  lemma KeyTextInjective(j: Key, k: Key)
    requires KeyText(j) == KeyText(k)
    ensures j == k
  {
    var m, n := Decimal.IntText(j.turnId), Decimal.IntText(k.turnId);
    if |m| < |n| {
      LaterColonDiffers(j.taskId, m, k.taskId, n);
    } else if |n| < |m| {
      LaterColonDiffers(k.taskId, n, j.taskId, m);
    }
    Text.SplitEqual(j.taskId + ":", m, k.taskId + ":", n);
    Text.SplitEqual(j.taskId, ":", k.taskId, ":");
    Decimal.IntTextInjective(j.turnId, k.turnId);
  }

  lemma LaterColonDiffers(a: string, m: string, b: string, n: string)
    requires ':' !in n && |m| < |n|
    ensures a + ":" + m != b + ":" + n
  {
    if |a + ":" + m| == |b + ":" + n| {
      assert (a + ":" + m)[|a|] == ':';
      assert (b + ":" + n)[|a|] == n[|n| - |m| - 1];
    }
  }

  function KeyOf(e: PriEntry): Key { Key(e.turn.taskId, e.turn.turnId) }

  /**
   The scheduler's state with its books: which popped entries are out and not yet terminal
   (`dispatched`), how many slots per type were lost (`leaked`), and the history of the queues.
   */
  datatype Sched = Sched(
    d: Queues, maxAttempts: int, attempts: map<Key, int>, times: map<Key, int>,
    dispatched: set<PriEntry>, leaked: map<string, nat>,
    enqueued: set<PriEntry>, popped: seq<PriEntry>)

  /**
   The outside world's answers during one handler: did the log call succeed, is there a
   `turn_started`, did the retry reach the broker, which type did the store resolve, which freshly
   popped entries could not be published, and the clock.
   */
  datatype Env = Env(ok: bool, hasStart: bool, redispatched: bool, resolved: Option<string>,
                     refused: set<nat>, now: int)

  function Initial(limit: nat, maxAttempts: int): Sched {
    Sched(Queues(map[], if limit < 1 then 1 else limit, 0), maxAttempts, map[], map[], {}, map[], {}, [])
  }

  function LeakedOf(s: Sched, t: string): nat {
    if t in s.leaked then s.leaked[t] else 0
  }

  function AttemptsOf(attempts: map<Key, int>, k: Key): int {
    if k in attempts then attempts[k] else 0
  }

  predicate HasKey(out: set<PriEntry>, k: Key) {
    exists e | e in out :: KeyOf(e) == k
  }

  ghost function EntryWithKey(out: set<PriEntry>, k: Key): (r: Option<PriEntry>)
    ensures r.Some? <==> HasKey(out, k)
    ensures r.Some? ==> r.value in out && KeyOf(r.value) == k
  {
    if HasKey(out, k) then
      var e :| e in out && KeyOf(e) == k;
      Some(e)
    else None
  }

  /** The dispatched entry that a report about `k` settles. */
  ghost function Holder(s: Sched, k: Key): Option<PriEntry> {
    EntryWithKey(s.dispatched, k)
  }

  ghost function Settle(s: Sched, k: Key): Sched {
    match Holder(s, k)
    case None => s
    case Some(e) => s.(dispatched := s.dispatched - {e})
  }

  ghost function Leak(s: Sched, holder: Option<PriEntry>): Sched {
    match holder
    case None => s
    case Some(e) => s.(leaked := s.leaked[e.turn.taskType := LeakedOf(s, e.turn.taskType) + 1])
  }

  function Forget(s: Sched, k: Key): Sched {
    s.(attempts := s.attempts - {k}, times := s.times - {k})
  }

  // ---------------------------------------------------------------- handlers on values

  /** One pop: the turn is out, whatever becomes of its publication. */
  ghost function PopOne(s: Sched, t: string, now: int): Sched
    requires CanPop(s.d, t)
  {
    var e := Top(QueueOf(s.d, t).pending);
    s.(d := PoppedEntry(s.d, t, e), times := s.times[KeyOf(e) := now],
       dispatched := s.dispatched + {e}, popped := s.popped + [e])
  }

  /** The publication failed: the slot is released and the turn is closed as failed. */
  ghost function RefuseOne(s: Sched, e: PriEntry): Sched {
    Forget(s.(d := Released(s.d, e.turn.taskType), dispatched := s.dispatched - {e}), KeyOf(e))
  }

  ghost function PopStep(s: Sched, t: string, refused: set<nat>, now: int): Sched
    requires CanPop(s.d, t)
  {
    var e := Top(QueueOf(s.d, t).pending);
    if e.seqNo in refused then RefuseOne(PopOne(s, t, now), e) else PopOne(s, t, now)
  }

  ghost function DispatchPending(s: Sched, t: string, refused: set<nat>, now: int): Sched
    decreases |QueueOf(s.d, t).pending|
  {
    if CanPop(s.d, t) then
      PendingShrinks(s, t, refused, now);
      DispatchPending(PopStep(s, t, refused, now), t, refused, now)
    else s
  }

  lemma PendingShrinks(s: Sched, t: string, refused: set<nat>, now: int)
    requires CanPop(s.d, t)
    ensures QueueOf(PopStep(s, t, refused, now).d, t).pending == QueueOf(s.d, t).pending - {Top(QueueOf(s.d, t).pending)}
    ensures |QueueOf(PopStep(s, t, refused, now).d, t).pending| < |QueueOf(s.d, t).pending|
  {
  }

  ghost function Release(s: Sched, holder: Option<PriEntry>, env: Env): Sched {
    match env.resolved
    case None => Leak(s, holder)
    case Some(t) => DispatchPending(s.(d := Released(s.d, t)), t, env.refused, env.now)
  }

  ghost function EnqueueAndDispatch(s: Sched, turn: QueuedTurn, refused: set<nat>, now: int): Sched {
    var entry := PriEntry(turn.priority, s.d.nextSeq, turn);
    DispatchPending(s.(d := Enqueued(s.d, turn), enqueued := s.enqueued + {entry}), turn.taskType, refused, now)
  }

  /** A turn is over and its slot goes back: done, timed out, or out of budget. */
  ghost function Finish(s: Sched, k: Key, env: Env): Sched {
    Release(Settle(Forget(s, k), k), Holder(s, k), env)
  }

  /** A turn is over and nobody gives its slot back. */
  ghost function FinishAndLeak(s: Sched, k: Key): Sched {
    Leak(Settle(Forget(s, k), k), Holder(s, k))
  }

  ghost function HandleDone(s: Sched, k: Key, env: Env): Sched {
    if env.ok then Finish(s, k, env) else s
  }

  ghost function HandleError(s: Sched, k: Key, reason: FailureReason, env: Env): Sched {
    if !env.ok then s
    else if !env.hasStart then FinishAndLeak(s, k)
    else
      match Decide(s.maxAttempts, reason, AttemptsOf(s.attempts, k))
      case RetryTurn(next) =>
        if env.redispatched then s.(attempts := s.attempts[k := next]) else FinishAndLeak(s, k)
      case FailTurn(_) => Finish(s, k, env)
  }

  ghost function FailAndRespond(s: Sched, k: Key, env: Env): Sched {
    Finish(s, k, env)
  }

  function Stale(s: Sched, lease: int, now: int): set<Key> {
    set k | k in s.times && now - s.times[k] > lease
  }

  ghost function ReclaimOne(s: Sched, k: Key, env: Env): Sched {
    HandleError(s.(times := s.times[k := env.now]), k, AgentUnresponsive, env)
  }

  ghost function ReclaimAll(s: Sched, keys: seq<Key>, world: Key -> Env): Sched {
    if keys == [] then s
    else
      var k := keys[|keys| - 1];
      ReclaimOne(ReclaimAll(s, keys[..|keys| - 1], world), k, world(k))
  }

  // ---------------------------------------------------------------- the object

  class Orchestrator {
    const dispatcher: DispatchQueues
    const maxAttempts: int
    var retryAttempts: map<Key, int>
    var dispatchTimes: map<Key, int>
    ghost var dispatched: set<PriEntry>
    ghost var leaked: map<string, nat>
    ghost var enqueued: set<PriEntry>
    ghost var popped: seq<PriEntry>

    ghost function View(): Sched
      reads this, dispatcher
    {
      Sched(dispatcher.View(), maxAttempts, retryAttempts, dispatchTimes, dispatched, leaked, enqueued, popped)
    }

    ghost predicate Valid()
      reads this, dispatcher
    {
      Wf(dispatcher.View())
    }

    constructor (limit: nat, budget: int)
      ensures Valid() && View() == Initial(limit, budget)
      ensures fresh(dispatcher)
    {
      dispatcher := new DispatchQueues(limit);
      maxAttempts := budget;
      retryAttempts, dispatchTimes := map[], map[];
      dispatched, leaked, enqueued, popped := {}, map[], {}, [];
    }

    ghost method NoteTerminal(k: Key)
      modifies this`dispatched
      ensures View() == Settle(old(View()), k)
    {
      match Holder(View(), k) {
        case None =>
        case Some(e) => dispatched := dispatched - {e};
      }
    }

    ghost method NoteLeak(holder: Option<PriEntry>)
      modifies this`leaked
      ensures View() == Leak(old(View()), holder)
    {
      match holder {
        case None =>
        case Some(e) => leaked := leaked[e.turn.taskType := LeakedOf(View(), e.turn.taskType) + 1];
      }
    }

    method FailTask(k: Key)
      modifies this`retryAttempts, this`dispatchTimes
      ensures View() == Forget(old(View()), k)
    {
      retryAttempts := retryAttempts - {k};
      dispatchTimes := dispatchTimes - {k};
    }

    method DispatchAllPending(taskType: string, refused: set<nat>, now: int)
      requires Valid()
      modifies this, dispatcher
      ensures Valid() && View() == DispatchPending(old(View()), taskType, refused, now)
    {
      while true
        invariant Valid()
        invariant DispatchPending(old(View()), taskType, refused, now) == DispatchPending(View(), taskType, refused, now)
        decreases |QueueOf(View().d, taskType).pending|
      {
        ghost var before := View();
        var next := dispatcher.TryPop(taskType);
        match next {
          case None => return;
          case Some(entry) =>
            PendingShrinks(before, taskType, refused, now);
            dispatchTimes := dispatchTimes[KeyOf(entry) := now];
            dispatched := dispatched + {entry};
            popped := popped + [entry];
            assert View() == PopOne(before, taskType, now);
            if entry.seqNo in refused {
              dispatcher.OnTurnTerminal(entry.turn.taskType);
              dispatched := dispatched - {entry};
              FailTask(KeyOf(entry));
            }
            assert View() == PopStep(before, taskType, refused, now);
        }
      }
    }

    method EnqueueTurn(turn: QueuedTurn, refused: set<nat>, now: int)
      requires Valid()
      modifies this, dispatcher
      ensures Valid() && View() == EnqueueAndDispatch(old(View()), turn, refused, now)
    {
      OperationsKeepWf(dispatcher.View(), turn, turn.taskType);
      enqueued := enqueued + {PriEntry(turn.priority, dispatcher.nextSeq, turn)};
      var _ := dispatcher.Enqueue(turn);
      DispatchAllPending(turn.taskType, refused, now);
    }

    method ReleaseSlotAndRedispatch(ghost holder: Option<PriEntry>, env: Env)
      requires Valid()
      modifies this, dispatcher
      ensures Valid() && View() == Release(old(View()), holder, env)
    {
      match env.resolved {
        case None => NoteLeak(holder);
        case Some(taskType) =>
          dispatcher.OnTurnTerminal(taskType);
          DispatchAllPending(taskType, env.refused, env.now);
      }
    }

    method FinishTurn(k: Key, env: Env)
      requires Valid()
      modifies this, dispatcher
      ensures Valid() && View() == Finish(old(View()), k, env)
    {
      ghost var holder := Holder(View(), k);
      FailTask(k);
      NoteTerminal(k);
      ReleaseSlotAndRedispatch(holder, env);
    }

    method FinishTurnWithoutRelease(k: Key)
      requires Valid()
      modifies this
      ensures Valid() && View() == FinishAndLeak(old(View()), k)
    {
      ghost var holder := Holder(View(), k);
      FailTask(k);
      NoteTerminal(k);
      NoteLeak(holder);
    }

    method HandleTurnExecutionDone(k: Key, env: Env)
      requires Valid()
      modifies this, dispatcher
      ensures Valid() && View() == HandleDone(old(View()), k, env)
    {
      if !env.ok {
        return;
      }
      FinishTurn(k, env);
    }

    method HandleTurnExecutionError(k: Key, reason: FailureReason, env: Env)
      requires Valid()
      modifies this, dispatcher
      ensures Valid() && View() == HandleError(old(View()), k, reason, env)
    {
      if !env.ok {
        return;
      }
      if !env.hasStart {
        FinishTurnWithoutRelease(k);
        return;
      }
      var current := if k in retryAttempts then retryAttempts[k] else 0;
      match Decide(maxAttempts, reason, current) {
        case RetryTurn(next) =>
          if env.redispatched {
            retryAttempts := retryAttempts[k := next];
          } else {
            FinishTurnWithoutRelease(k);
          }
        case FailTurn(_) =>
          FinishTurn(k, env);
      }
    }

    method FailTurnAndRespond(k: Key, env: Env)
      requires Valid()
      modifies this, dispatcher
      ensures Valid() && View() == FailAndRespond(old(View()), k, env)
    {
      FinishTurn(k, env);
    }

    /** The watchdog's round; a hash map lists the stale keys in some order. */
    method ReclaimStaleTurns(lease: int, now: int, world: Key -> Env) returns (count: nat, ghost order: seq<Key>)
      requires Valid()
      modifies this, dispatcher
      ensures Valid() && View() == ReclaimAll(old(View()), order, world)
      ensures count == |order| && multiset(order) == multiset(Stale(old(View()), lease, now))
      ensures forall k :: k in order <==> k in old(dispatchTimes) && now - old(dispatchTimes)[k] > lease
    {
      var stale := set k | k in dispatchTimes && now - dispatchTimes[k] > lease;
      count, order := |stale|, [];
      var rest := stale;
      while rest != {}
        invariant Valid()
        invariant rest <= stale
        invariant multiset(order) + multiset(rest) == multiset(stale)
        invariant View() == ReclaimAll(old(View()), order, world)
        decreases |rest|
      {
        var k :| k in rest;
        rest := rest - {k};
        ghost var before := order;
        order := order + [k];
        assert order[..|order| - 1] == before;
        dispatchTimes := dispatchTimes[k := world(k).now];
        HandleTurnExecutionError(k, AgentUnresponsive, world(k));
      }
      assert |multiset(order)| == |order| && |multiset(stale)| == |stale|;
      forall k ensures k in order <==> k in stale {
        assert k in order <==> k in multiset(order);
        assert k in stale <==> k in multiset(stale);
      }
    }
  }
}
