/** The store as an object, and the task and turn operations on top of it. */
module EventStore {
  import opened Wrappers
  import opened Events
  import opened Projection
  import opened ProjectionCache
  import opened BrokerStore
  import opened Batches
  import opened Lifecycle
  import opened ProjectionFacts

  datatype StoreError = LifecycleInvariant | InvalidTransition | TaskAlreadyEnded

  lemma {:induction false} MirrorRecordsAbsent(c: Cache, k: string, recs: Log)
    requires k !in c.entries
    ensures MirrorRecords(c, k, recs) == c
  {
    if recs != [] {
      MirrorRecordsAbsent(c, k, recs[..|recs| - 1]);
    }
  }

  class BrokerEventStore {
    /** The broker's side: one log per task. */
    var logs: map<string, Log>
    const cache: LruCache

    ghost function Footprint(): set<object>
      reads this, cache
    {
      {this, cache} + cache.Objects()
    }

    ghost function View(): Store
      reads this, cache, cache.Objects()
    {
      Store(logs, cache.View())
    }

    /** The projections are not shared, and the cache is coherent with the logs. */
    ghost predicate Valid()
      reads this, cache, cache.Objects()
    {
      cache.Valid() && Coherent(View()) && LruOk(View().cache)
    }

    ghost function LogFor(k: string): Log
      reads this
    {
      LogOf(logs, k)
    }

    constructor (capacity: nat)
      requires capacity >= 1
      ensures Valid() && View() == Empty(capacity) && fresh(Footprint())
    {
      logs := map[];
      cache := new LruCache(capacity);
    }

    method EnsureProjection(k: string)
      requires Valid()
      modifies Footprint()
      ensures Valid() && fresh(Footprint() - old(Footprint()))
      ensures View() == Ensured(old(View()), k)
      ensures k in cache.entries && cache.entries[k].View() == Fold(LogFor(k)) && logs == old(logs)
    {
      hide Coherent, LruOk, CaughtUp, Fold;
      EnsureKeeps(View(), k);
      assert k in View().cache.entries <==> k in cache.entries;
      var hit := cache.Get(k);
      if hit == null {
        cache.CatchUp(k, LogOf(logs, k));
      }
    }

    /** Fetch the projection for a read; after `EnsureProjection` it is always there. */
    method Fetch(k: string) returns (p: TaskProjection)
      requires Valid()
      modifies Footprint()
      ensures Valid() && fresh(Footprint() - old(Footprint()))
      ensures View() == Read(old(View()), k) && logs == old(logs)
      ensures p in Footprint() && p.View() == Fold(LogFor(k)) && CachedState(View(), k) == Some(p.state)
    {
      hide Coherent, LruOk, Touched, CaughtUp, Fold;
      ReadKeeps(View(), k);
      EnsureProjection(k);
      var hit := cache.Get(k);
      assert cache.Projections()[k] == Fold(LogFor(k));
      p := hit;
    }

    method GetTaskState(k: string) returns (state: TaskState)
      requires Valid()
      modifies Footprint()
      ensures Valid() && fresh(Footprint() - old(Footprint())) && View() == Read(old(View()), k) && logs == old(logs)
      ensures state == Fold(LogFor(k)).state && CachedState(View(), k) == Some(state)
    {
      var p := Fetch(k);
      state := p.state;
    }

    method GetMaxTurnId(k: string) returns (n: int)
      requires Valid()
      modifies Footprint()
      ensures Valid() && fresh(Footprint() - old(Footprint())) && View() == Read(old(View()), k) && logs == old(logs)
      ensures n == Fold(LogFor(k)).maxTurnId && CachedState(View(), k) == Some(Fold(LogFor(k)).state)
    {
      var p := Fetch(k);
      n := p.maxTurnId;
    }

    /** The state the guard judges by: the cached one, or none. */
    method CurrentState(k: string) returns (current: Option<TaskState>)
      requires cache.Valid()
      modifies cache`order
      ensures View() == old(View()).(cache := Touched(old(View()).cache, k))
      ensures current == CachedState(old(View()), k)
    {
      hide Touched;
      var hit := cache.Get(k);
      current := None;
      if hit != null {
        assert cache.Projections()[k] == hit.View();
        current := Some(hit.state);
      }
    }

    /** Append to the broker's log, then mirror the event into the cached projection, if there is one. */
    method Commit(k: string, rec: Record)
      requires cache.Valid()
      modifies this`logs, cache`order, cache.Objects()
      ensures logs == old(logs)[k := old(LogFor(k)) + [rec]]
      ensures View().cache == Mirror(Touched(old(View()).cache, k), k, rec)
      ensures cache.entries == old(cache.entries)
    {
      hide Touched, ApplyRecord, TaskProjection.View;
      logs := logs[k := LogOf(logs, k) + [rec]];
      var hit := cache.Get(k);
      ghost var c := cache.View();
      if hit != null {
        cache.ApplyTo(k, rec);
      }
    }

    method WriteEvent(k: string, ev: Event) returns (r: Result<int, StoreError>)
      requires Valid()
      modifies Footprint()
      ensures Valid() && Footprint() == old(Footprint())
      ensures View() == Written(old(View()), k, ev)
      ensures r.Ok? <==> old(Accepts(View(), k, ev))
      ensures logs == if r.Ok? then old(logs)[k := Append(old(LogFor(k)), ev)] else old(logs)
      ensures r.Ok? ==> r.value == NextSeq(old(LogFor(k)))
      ensures r.Err? ==> r.error == LifecycleInvariant
      ensures cache.entries == old(cache.entries)
    {
      WriteKeeps(View(), k, ev);
      hide Coherent, LruOk, Touched, Mirror, Fold, ValidScope, ValidPayload, TransitionAllowed;
      if !ValidScope(ev) || !ValidPayload(ev) {
        return Err(LifecycleInvariant);
      }
      var current := CurrentState(k);
      if !TransitionAllowed(current, ev.etype) {
        return Err(LifecycleInvariant);
      }
      var rec := Record(NextSeq(LogOf(logs, k)), ev);
      Commit(k, rec);
      r := Ok(rec.seqNo);
    }

    /** The id is generated, so no log and no cached projection knows it. */
    method CreateTask(k: string, payload: Payload) returns (ev: Event)
      requires Valid()
      requires k !in logs && k !in View().cache.entries
      modifies this`logs
      ensures Valid() && Footprint() == old(Footprint())
      ensures ev == Event(TaskCreated, None, None, payload)
      ensures View() == BrokerStore.Created(old(View()), k, ev) && LogFor(k) == Append([], ev)
    {
      ev := Event(TaskCreated, None, None, payload);
      CreateKeepsCoherent(View(), k, ev);
      hide Coherent, LruOk, Append;
      SetLog(k, Append(LogOf(logs, k), ev));
    }

    /** The broker's side alone changes. */
    method SetLog(k: string, log: Log)
      modifies this`logs
      ensures logs == old(logs)[k := log]
      ensures cache.Valid() == old(cache.Valid()) && cache.View() == old(cache.View())
      ensures Footprint() == old(Footprint())
    {
      logs := logs[k := log];
    }

    /**
     A batch: the broker numbers each event in its own task's log, and then the first event's cached
     projection takes in all of them. The store stays coherent if and only if `BatchCoherentIff` says so,
     in particular for a batch of one task.
     */
    method WriteEventsBatch(items: seq<Item>) returns (seqs: seq<int>)
      requires Valid()
      modifies Footprint()
      ensures cache.Valid() && LruOk(View().cache) && Footprint() == old(Footprint())
      ensures View() == BatchWritten(old(View()), items)
      ensures Valid() <==> items == [] || (OthersUncached(old(View()), items) && FirstInStep(old(View()), items))
      ensures items == [] || OfOneTask(items, items[0].k) ==> Valid()
      ensures seqs == SeqNos(ItemRecords(old(logs), items))
    {
      if items == [] {
        return [];
      }
      BatchOutcome(View(), items);
      hide Coherent, LruOk, BatchWritten, ItemRecords, FirstInStep, OthersUncached, OfOneTask, SeqNos;
      seqs := CommitBatch(items);
    }

    method CommitBatch(items: seq<Item>) returns (seqs: seq<int>)
      requires cache.Valid() && items != []
      modifies this`logs, cache`order, cache.Objects()
      ensures View() == BatchWritten(old(View()), items)
      ensures cache.entries == old(cache.entries)
      ensures seqs == SeqNos(ItemRecords(old(logs), items))
    {
      hide Touched, MirrorRecords, AppendItems, ItemRecords, TaskProjection.View;
      var recs: seq<Record>;
      var after: map<string, Log>;
      after, recs, seqs := Number(logs, items);
      MirrorBatch(items[0].k, recs);
      logs := after;
    }

    method MirrorBatch(k: string, recs: seq<Record>)
      requires cache.Valid()
      modifies cache`order, cache.Objects()
      ensures cache.View() == MirrorRecords(Touched(old(cache.View()), k), k, recs)
      ensures cache.entries == old(cache.entries)
    {
      hide Touched, MirrorRecords;
      var hit := cache.Get(k);
      if hit != null {
        Absorb(k, recs);
      } else {
        MirrorRecordsAbsent(cache.View(), k, recs);
      }
    }

    /** What the broker answers to a batch: each task's events get the next numbers of their own log. */
    static method Number(logs: map<string, Log>, items: seq<Item>)
      returns (after: map<string, Log>, recs: seq<Record>, seqs: seq<int>)
      ensures after == AppendItems(logs, items) && recs == ItemRecords(logs, items) && seqs == SeqNos(recs)
      ensures |seqs| == |items|
      ensures forall i :: 0 <= i < |items| ==>
                seqs[i] == NextSeq(LogOf(logs, items[i].k)) + |EventsFor(items[..i], items[i].k)|
    {
      after, recs, seqs := logs, [], [];
      for i := 0 to |items|
        invariant after == AppendItems(logs, items[..i])
        invariant recs == ItemRecords(logs, items[..i]) && seqs == SeqNos(recs)
      {
        assert items[..i + 1][..i] == items[..i];
        var rec := Record(NextSeq(LogOf(after, items[i].k)), items[i].ev);
        after := after[items[i].k := LogOf(after, items[i].k) + [rec]];
        recs, seqs := recs + [rec], seqs + [rec.seqNo];
      }
      assert items[..|items|] == items;
      RecordsLength(logs, items);
      hide NextSeq, AppendItems, ItemRecords;
      forall i | 0 <= i < |items| ensures seqs[i] == NextSeq(LogOf(logs, items[i].k)) + |EventsFor(items[..i], items[i].k)| {
        ItemNumber(logs, items, i);
      }
    }

    method Absorb(k: string, recs: seq<Record>)
      requires cache.Valid() && k in cache.entries
      modifies cache.Objects()
      ensures cache.View() == MirrorRecords(old(cache.View()), k, recs)
    {
      hide ApplyRecord;
      for i := 0 to |recs|
        invariant cache.View() == MirrorRecords(old(cache.View()), k, recs[..i])
      {
        assert recs[..i + 1][..i] == recs[..i];
        cache.ApplyTo(k, recs[i]);
      }
      assert recs[..|recs|] == recs;
    }

    method InvalidateProjection(k: string)
      requires Valid()
      modifies Footprint()
      ensures Valid() && Footprint() <= old(Footprint())
      ensures View() == Dropped(old(View()), k) && logs == old(logs)
    {
      DropKeepsCoherent(View(), k);
      hide Coherent, LruOk;
      cache.Invalidate(k);
    }

    method GetIncompleteTurns(k: string) returns (rows: seq<IncompleteTurn>)
      requires Valid()
      modifies Footprint()
      ensures Valid() && fresh(Footprint() - old(Footprint())) && logs == old(logs)
      ensures forall r :: r in rows <==> Listed(Fold(LogFor(k)), Fold(LogFor(k)).activeTurns, r)
      ensures forall i, j :: 0 <= i < j < |rows| ==> rows[i].turnId != rows[j].turnId
    {
      var p := Fetch(k);
      rows := p.ListIncompleteTurns();
    }

    method GetIncompleteSteps(k: string) returns (rows: seq<IncompleteStep>)
      requires Valid()
      modifies Footprint()
      ensures Valid() && fresh(Footprint() - old(Footprint())) && logs == old(logs)
      ensures forall s :: s in rows <==> ListedStep(Fold(LogFor(k)).activeSteps, s)
      ensures forall i, j :: 0 <= i < j < |rows| ==> rows[i].stepId != rows[j].stepId
    {
      var p := Fetch(k);
      rows := p.ListIncompleteSteps();
    }

    method GetTurnEvents(k: string, turn: int) returns (evs: seq<Event>)
      requires Valid()
      modifies Footprint()
      ensures Valid() && fresh(Footprint() - old(Footprint())) && logs == old(logs)
      ensures evs == Evs(OfTurn(LogFor(k), turn))
    {
      var p := Fetch(k);
      evs := EventsAt(p.bySeq, TurnSeqsOf(p.byTurn, turn));
      assert InOrder(LogOf(logs, k));
      TurnEventsMeaning(LogFor(k), turn);
    }
  }
}
