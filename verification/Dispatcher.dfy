/**
 The dispatch queues: one priority queue and one in-flight counter per task
 type, behind a common cap.
 */
module Dispatcher {
  import opened Wrappers

  datatype QueuedTurn = QueuedTurn(taskType: string, taskId: string, turnId: int, userInput: string,
                                   redoGroup: string, redoCount: int, cachedLlm: seq<string>, priority: int)

  datatype PriEntry = PriEntry(priority: int, seqNo: nat, turn: QueuedTurn)

  /** The heap order: the larger priority first, and first in first out among equals. */
  predicate Above(x: PriEntry, y: PriEntry) {
    x.priority > y.priority || (x.priority == y.priority && x.seqNo < y.seqNo)
  }

  /** The heap is its set of entries; popping removes a greatest one. */
  datatype TypeQueue = TypeQueue(pending: set<PriEntry>, inFlight: nat)

  datatype Queues = Queues(byType: map<string, TypeQueue>, maxConcurrent: nat, nextSeq: nat)

  function QueueOf(d: Queues, t: string): TypeQueue {
    if t in d.byType then d.byType[t] else TypeQueue({}, 0)
  }

  predicate WfQueue(q: TypeQueue, t: string, nextSeq: nat) {
    && (forall e | e in q.pending :: e.turn.taskType == t && e.priority == e.turn.priority && e.seqNo < nextSeq)
    && (forall x, y | x in q.pending && y in q.pending :: x.seqNo == y.seqNo ==> x == y)
  }

  predicate Wf(d: Queues) {
    d.maxConcurrent >= 1 && forall t | t in d.byType :: WfQueue(d.byType[t], t, d.nextSeq)
  }

  predicate IsTop(e: PriEntry, s: set<PriEntry>) {
    e in s && forall x | x in s :: !Above(x, e)
  }

  lemma TopExists(s: set<PriEntry>)
    requires s != {}
    ensures exists e :: IsTop(e, s)
    decreases |s|
  {
    var e :| e in s;
    if s == {e} {
      assert IsTop(e, s);
    } else {
      TopExists(s - {e});
      var m :| IsTop(m, s - {e});
      var best := if Above(e, m) then e else m;
      forall x | x in s ensures !Above(x, best) {
        if x != e {
          assert x in s - {e};
        }
      }
      assert IsTop(best, s);
    }
  }

  ghost function Top(s: set<PriEntry>): (e: PriEntry)
    requires s != {}
    ensures IsTop(e, s)
  {
    TopExists(s);
    var e :| IsTop(e, s);
    e
  }

  // ---------------------------------------------------------------- operations on values

  function Enqueued(d: Queues, turn: QueuedTurn): Queues {
    var q := QueueOf(d, turn.taskType);
    var entry := PriEntry(turn.priority, d.nextSeq, turn);
    d.(byType := d.byType[turn.taskType := q.(pending := q.pending + {entry})], nextSeq := d.nextSeq + 1)
  }

  predicate CanPop(d: Queues, t: string) {
    QueueOf(d, t).inFlight < d.maxConcurrent && QueueOf(d, t).pending != {}
  }

  function PoppedEntry(d: Queues, t: string, e: PriEntry): Queues {
    var q := QueueOf(d, t);
    d.(byType := d.byType[t := TypeQueue(q.pending - {e}, q.inFlight + 1)])
  }

  ghost function Popped(d: Queues, t: string): (Queues, Option<PriEntry>) {
    if CanPop(d, t) then
      var e := Top(QueueOf(d, t).pending);
      (PoppedEntry(d, t, e), Some(e))
    else (d, None)
  }

  function Released(d: Queues, t: string): Queues {
    var q := QueueOf(d, t);
    if t in d.byType && q.inFlight > 0 then d.(byType := d.byType[t := q.(inFlight := q.inFlight - 1)]) else d
  }

  lemma OperationsKeepWf(d: Queues, turn: QueuedTurn, t: string)
    requires Wf(d)
    ensures Wf(Enqueued(d, turn)) && Wf(Popped(d, t).0) && Wf(Released(d, t))
  {
    var d' := Enqueued(d, turn);
    forall u | u in d'.byType ensures WfQueue(d'.byType[u], u, d'.nextSeq) {
      assert WfQueue(QueueOf(d, u), u, d.nextSeq);
    }
    if CanPop(d, t) {
      assert WfQueue(QueueOf(d, t), t, d.nextSeq);
    }
  }

  /** With distinct sequence numbers there is only one greatest entry, so `pop` has no choice. */
  lemma TopUnique(s: set<PriEntry>, e: PriEntry)
    requires forall x, y | x in s && y in s :: x.seqNo == y.seqNo ==> x == y
    requires IsTop(e, s)
    ensures e == Top(s)
  {
  }

  // ---------------------------------------------------------------- the object

  class DispatchQueues {
    var byType: map<string, TypeQueue>
    const maxConcurrent: nat
    var nextSeq: nat

    ghost function View(): Queues
      reads this
    {
      Queues(byType, maxConcurrent, nextSeq)
    }

    constructor (limit: nat)
      ensures View() == Queues(map[], if limit < 1 then 1 else limit, 0)
      ensures Wf(View())
    {
      byType := map[];
      maxConcurrent := if limit < 1 then 1 else limit;
      nextSeq := 0;
    }

    method Enqueue(turn: QueuedTurn) returns (pendingCount: nat)
      modifies this
      ensures View() == Enqueued(old(View()), turn)
      ensures pendingCount == |QueueOf(View(), turn.taskType).pending|
    {
      var entry := PriEntry(turn.priority, nextSeq, turn);
      nextSeq := nextSeq + 1;
      if turn.taskType !in byType {
        byType := byType[turn.taskType := TypeQueue({}, 0)];
      }
      var q := byType[turn.taskType];
      q := q.(pending := q.pending + {entry});
      byType := byType[turn.taskType := q];
      pendingCount := |q.pending|;
    }

    method TryPop(taskType: string) returns (r: Option<PriEntry>)
      requires Wf(View())
      modifies this
      ensures (View(), r) == Popped(old(View()), taskType)
      ensures Wf(View())
    {
      if taskType !in byType {
        return None;
      }
      var q := byType[taskType];
      if q.inFlight >= maxConcurrent || q.pending == {} {
        return None;
      }
      TopExists(q.pending);
      var e :| e in q.pending && forall x | x in q.pending :: !Above(x, e);
      assert WfQueue(q, taskType, nextSeq);
      TopUnique(q.pending, e);
      OperationsKeepWf(View(), e.turn, taskType);
      byType := byType[taskType := TypeQueue(q.pending - {e}, q.inFlight + 1)];
      r := Some(e);
    }

    method OnTurnTerminal(taskType: string)
      requires Wf(View())
      modifies this
      ensures View() == Released(old(View()), taskType)
      ensures Wf(View())
    {
      if taskType in byType {
        var q := byType[taskType];
        if q.inFlight > 0 {
          byType := byType[taskType := q.(inFlight := q.inFlight - 1)];
        }
      }
    }
  }
}
