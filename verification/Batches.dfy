/**
 A batch may hold events of several tasks. The broker appends each event to its own task's log, but only
 the first event's task has its cached projection updated, and with the events of all of them.
 */
module Batches {
  import opened Wrappers
  import opened Events
  import opened Projection
  import opened ProjectionFacts
  import opened ProjectionCache
  import opened BrokerStore

  datatype Item = Item(k: string, ev: Event)

  function AppendItems(logs: map<string, Log>, items: seq<Item>): map<string, Log> {
    if items == [] then logs
    else
      var before, last := AppendItems(logs, items[..|items| - 1]), items[|items| - 1];
      before[last.k := Append(LogOf(before, last.k), last.ev)]
  }

  /** The records the broker makes of a batch. */
  function ItemRecords(logs: map<string, Log>, items: seq<Item>): Log {
    if items == [] then []
    else
      var front, last := items[..|items| - 1], items[|items| - 1];
      ItemRecords(logs, front) + [Record(NextSeq(LogOf(AppendItems(logs, front), last.k)), last.ev)]
  }

  function MirrorRecords(c: Cache, k: string, recs: Log): Cache {
    if recs == [] then c else Mirror(MirrorRecords(c, k, recs[..|recs| - 1]), k, recs[|recs| - 1])
  }

  function BatchWritten(s: Store, items: seq<Item>): Store {
    if items == [] then s
    else
      var k := items[0].k;
      Store(AppendItems(s.logs, items), MirrorRecords(Touched(s.cache, k), k, ItemRecords(s.logs, items)))
  }

  /** The events of one task in the batch. */
  function EventsFor(items: seq<Item>, k: string): seq<Event> {
    if items == [] then []
    else
      var front, last := EventsFor(items[..|items| - 1], k), items[|items| - 1];
      if last.k == k then front + [last.ev] else front
  }

  // ---------------------------------------------------------------- numbers

  /** Each log grows by its own events. */
  lemma {:induction false} LogAfterItems(logs: map<string, Log>, items: seq<Item>, k: string)
    ensures LogOf(AppendItems(logs, items), k) == AppendAll(LogOf(logs, k), EventsFor(items, k))
  {
    if items != [] {
      var front, last := items[..|items| - 1], items[|items| - 1];
      LogAfterItems(logs, front, k);
      if last.k == k {
        assert (EventsFor(front, k) + [last.ev])[..|EventsFor(front, k)|] == EventsFor(front, k);
      }
      hide Append;
    }
  }

  lemma {:induction false} AppendAllNumbers(log: Log, evs: seq<Event>)
    ensures NextSeq(AppendAll(log, evs)) == NextSeq(log) + |evs|
  {
    if evs != [] {
      AppendAllNumbers(log, evs[..|evs| - 1]);
    }
  }

  /** Every event gets the next number of its own task, so a task's events in a batch are numbered without gap. */
  lemma {:induction false} ItemNumber(logs: map<string, Log>, items: seq<Item>, i: nat)
    requires i < |items|
    ensures |ItemRecords(logs, items)| == |items|
    ensures var k := items[i].k;
            ItemRecords(logs, items)[i] == Record(NextSeq(LogOf(logs, k)) + |EventsFor(items[..i], k)|, items[i].ev)
  {
    var front := items[..|items| - 1];
    RecordsLength(logs, front);
    if i < |front| {
      ItemNumber(logs, front, i);
      assert front[..i] == items[..i];
    } else {
      LogAfterItems(logs, front, items[i].k);
      AppendAllNumbers(LogOf(logs, items[i].k), EventsFor(front, items[i].k));
    }
  }

  lemma {:induction false} RecordsLength(logs: map<string, Log>, items: seq<Item>)
    ensures |ItemRecords(logs, items)| == |items|
  {
    if items != [] {
      RecordsLength(logs, items[..|items| - 1]);
    }
  }

  // ---------------------------------------------------------------- coherence

  lemma {:induction false} MirrorRecordsMeaning(c: Cache, k: string, recs: Log)
    ensures var c' := MirrorRecords(c, k, recs);
            && c'.order == c.order && c'.cap == c.cap && c'.entries.Keys == c.entries.Keys
            && (k in c.entries ==> c'.entries[k] == ApplyAll(c.entries[k], recs))
            && (forall j | j in c.entries && j != k :: c'.entries[j] == c.entries[j])
  {
    if recs != [] {
      MirrorRecordsMeaning(c, k, recs[..|recs| - 1]);
      hide ApplyRecord;
    }
  }

  /** A batch keeps the access order in shape, whatever it does to the projections. */
  lemma BatchKeepsLru(s: Store, items: seq<Item>)
    requires LruOk(s.cache)
    ensures LruOk(BatchWritten(s, items).cache)
  {
    if items != [] {
      TouchKeepsLru(s.cache, items[0].k);
      MirrorRecordsMeaning(Touched(s.cache, items[0].k), items[0].k, ItemRecords(s.logs, items));
      hide Touched, NoRepeats, MirrorRecords, ItemRecords;
    }
  }

  /** No other task of the batch is cached. */
  predicate OthersUncached(s: Store, items: seq<Item>) {
    forall i :: 0 <= i < |items| && items[i].k != items[0].k ==> items[i].k !in s.cache.entries
  }

  /** If the first event's task is cached, all the batch's records amount to its own for it. */
  predicate FirstInStep(s: Store, items: seq<Item>)
    requires items != []
  {
    var k := items[0].k;
    k in s.cache.entries ==>
      ApplyAll(Fold(LogIn(s, k)), ItemRecords(s.logs, items)) == Fold(AppendAll(LogIn(s, k), EventsFor(items, k)))
  }

  lemma {:induction false} NobodysEvents(items: seq<Item>, k: string)
    ensures EventsFor(items, k) != [] <==> exists i :: 0 <= i < |items| && items[i].k == k
  {
    if items != [] {
      var front := items[..|items| - 1];
      NobodysEvents(front, k);
      assert forall i :: 0 <= i < |front| ==> front[i] == items[i];
      if EventsFor(front, k) != [] {
        var i :| 0 <= i < |front| && front[i].k == k;
        assert items[i].k == k;
      }
      if items[|items| - 1].k == k {
        assert items[|items| - 1].k == k;
      }
    }
  }

  lemma {:induction false} AppendAllInOrder(log: Log, evs: seq<Event>)
    requires InOrder(log)
    ensures InOrder(AppendAll(log, evs))
  {
    if evs != [] {
      AppendAllInOrder(log, evs[..|evs| - 1]);
      AppendInOrder(AppendAll(log, evs[..|evs| - 1]), evs[|evs| - 1]);
      hide InOrder, NextSeq;
    }
  }

  /** A log that has grown has another projection. */
  lemma GrownLogDiffers(log: Log, evs: seq<Event>)
    requires InOrder(log) && evs != []
    ensures Fold(AppendAll(log, evs)) != Fold(log)
  {
    AppendAllInOrder(log, evs);
    MaxSeqMeaning(log);
    MaxSeqMeaning(AppendAll(log, evs));
    AppendAllNumbers(log, evs);
    hide Fold, AppendAll;
  }

  lemma BatchLogs(s: Store, items: seq<Item>, j: string)
    requires Coherent(s)
    ensures LogIn(BatchWritten(s, items), j) == AppendAll(LogIn(s, j), EventsFor(items, j))
    ensures InOrder(LogIn(BatchWritten(s, items), j))
  {
    LogAfterItems(s.logs, items, j);
    assert InOrder(LogOf(s.logs, j));
    AppendAllInOrder(LogIn(s, j), EventsFor(items, j));
    hide InOrder, Fold;
  }

  lemma OtherEntryIff(log: Log, evs: seq<Event>)
    requires InOrder(log)
    ensures Fold(AppendAll(log, evs)) == Fold(log) <==> evs == []
  {
    if evs != [] {
      GrownLogDiffers(log, evs);
    }
  }

  /** The cached projection of one task is up to date. */
  predicate InStep(s: Store, k: string) {
    k in s.cache.entries ==> s.cache.entries[k] == Fold(LogIn(s, k))
  }

  lemma CoherentByEntry(s: Store)
    requires forall k :: InOrder(LogIn(s, k))
    ensures Coherent(s) <==> forall k :: InStep(s, k)
  {
    hide Fold, InOrder;
    forall k ensures InOrder(LogOf(s.logs, k)) {
      assert InOrder(LogIn(s, k));
    }
    if forall k :: InStep(s, k) {
      forall k | k in s.cache.entries ensures s.cache.entries[k] == Fold(LogOf(s.logs, k)) {
        assert InStep(s, k);
      }
    }
  }

  lemma BatchEntries(s: Store, items: seq<Item>)
    requires items != []
    ensures var k, s' := items[0].k, BatchWritten(s, items);
            && s'.cache.entries.Keys == s.cache.entries.Keys
            && (k in s.cache.entries ==> s'.cache.entries[k] == ApplyAll(s.cache.entries[k], ItemRecords(s.logs, items)))
            && (forall j | j in s.cache.entries && j != k :: s'.cache.entries[j] == s.cache.entries[j])
  {
    MirrorRecordsMeaning(Touched(s.cache, items[0].k), items[0].k, ItemRecords(s.logs, items));
    assert Touched(s.cache, items[0].k).entries == s.cache.entries;
    hide Touched, MirrorRecords, ApplyAll, ItemRecords, AppendItems;
  }

  lemma EntryInStepIff(s: Store, items: seq<Item>, j: string)
    requires Coherent(s) && items != []
    ensures InStep(BatchWritten(s, items), j) <==>
            if j == items[0].k then FirstInStep(s, items)
            else j in s.cache.entries ==> EventsFor(items, j) == []
  {
    BatchEntries(s, items);
    BatchLogs(s, items, j);
    assert j in s.cache.entries ==> s.cache.entries[j] == Fold(LogIn(s, j));
    assert InOrder(LogOf(s.logs, j));
    hide Coherent, BatchWritten, Fold, ApplyAll, ItemRecords, EventsFor, AppendAll, InOrder;
    OtherEntryIff(LogIn(s, j), EventsFor(items, j));
  }

  /**
   A batch keeps the store coherent if and only if no other of its tasks is cached and, where the first
   one is, the foreign records leave no trace in its projection.
   */
  lemma BatchCoherentIff(s: Store, items: seq<Item>)
    requires Coherent(s) && items != []
    ensures Coherent(BatchWritten(s, items)) <==> OthersUncached(s, items) && FirstInStep(s, items)
  {
    var s' := BatchWritten(s, items);
    hide Coherent, BatchWritten, InStep, FirstInStep, EventsFor, InOrder;
    forall j
      ensures InOrder(LogIn(s', j))
      ensures InStep(s', j) <==>
              if j == items[0].k then FirstInStep(s, items) else j in s.cache.entries ==> EventsFor(items, j) == []
      ensures EventsFor(items, j) != [] <==> exists i :: 0 <= i < |items| && items[i].k == j
    {
      BatchLogs(s, items, j);
      EntryInStepIff(s, items, j);
      NobodysEvents(items, j);
    }
    CoherentByEntry(s');
    if forall j :: InStep(s', j) {
      assert InStep(s', items[0].k);
      forall i | 0 <= i < |items| && items[i].k != items[0].k ensures items[i].k !in s.cache.entries {
        assert InStep(s', items[i].k);
      }
    }
  }

  // ---------------------------------------------------------------- one task

  predicate OfOneTask(items: seq<Item>, k: string) {
    forall i :: 0 <= i < |items| ==> items[i].k == k
  }

  function EventsOf(items: seq<Item>): seq<Event> {
    seq(|items|, i requires 0 <= i < |items| => items[i].ev)
  }

  lemma {:induction false} OneTaskEvents(items: seq<Item>, k: string)
    requires OfOneTask(items, k)
    ensures EventsFor(items, k) == EventsOf(items)
  {
    if items != [] {
      OneTaskEvents(items[..|items| - 1], k);
      assert EventsOf(items) == EventsOf(items[..|items| - 1]) + [items[|items| - 1].ev];
    }
  }

  lemma LastRecord(logs: map<string, Log>, items: seq<Item>)
    requires items != []
    ensures var front, last := items[..|items| - 1], items[|items| - 1];
            var log := AppendAll(LogOf(logs, last.k), EventsFor(front, last.k));
            ItemRecords(logs, items) == ItemRecords(logs, front) + [Record(NextSeq(log), last.ev)]
  {
    LogAfterItems(logs, items[..|items| - 1], items[|items| - 1].k);
    hide NextSeq, AppendAll, EventsFor, AppendItems;
  }

  lemma ApplyAllSnoc(p: Proj, recs: Log, r: Record)
    ensures ApplyAll(p, recs + [r]) == ApplyRecord(ApplyAll(p, recs), r)
  {
    assert (recs + [r])[..|recs|] == recs;
  }

  lemma EventsOfSnoc(items: seq<Item>)
    requires items != []
    ensures EventsOf(items) == EventsOf(items[..|items| - 1]) + [items[|items| - 1].ev]
  {
  }

  /** The log grows by the records, and replaying the records is folding the grown log. */
  predicate GrowsBy(log: Log, grown: Log, recs: Log) {
    grown == log + recs && ApplyAll(Fold(log), recs) == Fold(grown)
  }

  lemma GrowsByMore(log: Log, grown: Log, recs: Log, r: Record)
    requires GrowsBy(log, grown, recs)
    ensures GrowsBy(log, grown + [r], recs + [r])
  {
    FoldSnoc(grown, r);
    ApplyAllSnoc(Fold(log), recs, r);
    hide Fold, ApplyAll, ApplyRecord;
    assert log + recs + [r] == log + (recs + [r]);
  }

  /** For one task, the records are what its log grows by. */
  lemma {:induction false} OneTaskRecords(log: Log, logs: map<string, Log>, items: seq<Item>, k: string)
    requires OfOneTask(items, k) && log == LogOf(logs, k)
    ensures GrowsBy(log, AppendAll(log, EventsOf(items)), ItemRecords(logs, items))
  {
    if items != [] {
      var front, last := items[..|items| - 1], items[|items| - 1];
      OneTaskRecords(log, logs, front, k);
      OneTaskEvents(front, k);
      LastRecord(logs, items);
      EventsOfSnoc(items);
      var grown := AppendAll(log, EventsOf(front));
      assert (EventsOf(front) + [last.ev])[..|front|] == EventsOf(front);
      assert AppendAll(log, EventsOf(items)) == grown + [Record(NextSeq(grown), last.ev)];
      hide GrowsBy, ItemRecords, AppendAll, EventsOf, NextSeq, LogOf;
      GrowsByMore(log, grown, ItemRecords(logs, front), Record(NextSeq(grown), last.ev));
    } else {
      assert log + [] == log;
    }
  }

  /** A batch of one task keeps the store coherent. */
  lemma OneTaskBatchKeeps(s: Store, items: seq<Item>)
    requires Coherent(s) && items != [] && OfOneTask(items, items[0].k)
    ensures Coherent(BatchWritten(s, items))
  {
    OneTaskRecords(LogIn(s, items[0].k), s.logs, items, items[0].k);
    OneTaskEvents(items, items[0].k);
    hide Coherent, Fold, ApplyAll, ItemRecords;
    BatchCoherentIff(s, items);
  }

  lemma {:induction false} OneTaskLogs(logs: map<string, Log>, items: seq<Item>, k: string)
    requires OfOneTask(items, k)
    ensures AppendItems(logs, items) == if items == [] then logs else logs[k := AppendAll(LogOf(logs, k), EventsOf(items))]
  {
    if items != [] {
      var front := items[..|items| - 1];
      OneTaskLogs(logs, front, k);
      EventsOfSnoc(items);
      assert (EventsOf(front) + [items[|items| - 1].ev])[..|front|] == EventsOf(front);
      hide EventsOf, NextSeq;
    }
  }

  lemma {:induction false} OneTaskMirror(c: Cache, logs: map<string, Log>, items: seq<Item>, k: string)
    requires OfOneTask(items, k)
    ensures MirrorRecords(c, k, ItemRecords(logs, items)) == MirrorAll(c, k, LogOf(logs, k), EventsOf(items))
  {
    if items != [] {
      var front := items[..|items| - 1];
      OneTaskMirror(c, logs, front, k);
      OneTaskEvents(front, k);
      LastRecord(logs, items);
      EventsOfSnoc(items);
      assert (EventsOf(front) + [items[|items| - 1].ev])[..|front|] == EventsOf(front);
      hide EventsOf, NextSeq, Mirror, ItemRecords, AppendAll, LogOf;
      var rs, r := ItemRecords(logs, front), Record(NextSeq(AppendAll(LogOf(logs, k), EventsOf(front))), items[|items| - 1].ev);
      assert (rs + [r])[..|rs|] == rs;
    }
  }

  /** A batch of one task is the batch operation of the store's runs. */
  lemma OneTaskIsBatched(s: Store, items: seq<Item>, k: string)
    requires items != [] && OfOneTask(items, k)
    ensures BatchWritten(s, items) == Batched(s, k, EventsOf(items))
  {
    OneTaskLogs(s.logs, items, k);
    OneTaskMirror(Touched(s.cache, k), s.logs, items, k);
    hide AppendItems, ItemRecords, MirrorRecords, MirrorAll, Touched, AppendAll;
  }

  /** Whether a batch keeps the store in order, and that one of a single task does. */
  lemma BatchOutcome(s: Store, items: seq<Item>)
    requires Coherent(s) && LruOk(s.cache) && items != []
    ensures LruOk(BatchWritten(s, items).cache)
    ensures Coherent(BatchWritten(s, items)) <==> OthersUncached(s, items) && FirstInStep(s, items)
    ensures OfOneTask(items, items[0].k) ==> Coherent(BatchWritten(s, items))
  {
    hide Coherent, LruOk, BatchWritten, OthersUncached, FirstInStep;
    BatchKeepsLru(s, items);
    BatchCoherentIff(s, items);
    if OfOneTask(items, items[0].k) {
      OneTaskBatchKeeps(s, items);
    }
  }

  // ---------------------------------------------------------------- several tasks

  /** What a projection only ever counts upwards: events of a turn, and calls of a model with their usage. */
  datatype Mark = OfTurns | UsageOf(m: string)

  predicate Bears(ev: Event, mark: Mark) {
    match mark
    case OfTurns => ev.turnId.Some?
    case UsageOf(m) => ev.etype.LlmCompleted? && ev.payload.usage.Some? && ModelOf(ev) == m
  }

  function Counted(p: Proj, mark: Mark): int {
    match mark
    case OfTurns => |p.recentTurns|
    case UsageOf(m) => StatsOf(p.tokens, m).calls
  }

  function MarkCount(evs: seq<Event>, mark: Mark): nat {
    if evs == [] then 0
    else MarkCount(evs[..|evs| - 1], mark) + if Bears(evs[|evs| - 1], mark) then 1 else 0
  }

  lemma RecordCounts(p: Proj, r: Record, mark: Mark)
    ensures Counted(ApplyRecord(p, r), mark) == Counted(p, mark) + if Bears(r.ev, mark) then 1 else 0
  {
  }

  lemma {:induction false} RecordsCount(p: Proj, logs: map<string, Log>, items: seq<Item>, mark: Mark)
    ensures Counted(ApplyAll(p, ItemRecords(logs, items)), mark) == Counted(p, mark) + MarkCount(EventsOf(items), mark)
  {
    if items != [] {
      var front, last := items[..|items| - 1], items[|items| - 1];
      RecordsCount(p, logs, front, mark);
      LastRecord(logs, items);
      EventsOfSnoc(items);
      assert EventsOf(items)[..|items| - 1] == EventsOf(front);
      var r := Record(NextSeq(AppendAll(LogOf(logs, last.k), EventsFor(front, last.k))), last.ev);
      hide ItemRecords, EventsOf, NextSeq, AppendAll, ApplyRecord, Counted, Bears;
      ApplyAllSnoc(p, ItemRecords(logs, front), r);
      RecordCounts(ApplyAll(p, ItemRecords(logs, front)), r, mark);
    }
  }

  lemma {:induction false} GrownCount(log: Log, evs: seq<Event>, mark: Mark)
    ensures Counted(Fold(AppendAll(log, evs)), mark) == Counted(Fold(log), mark) + MarkCount(evs, mark)
  {
    if evs != [] {
      var before := AppendAll(log, evs[..|evs| - 1]);
      var r := Record(NextSeq(before), evs[|evs| - 1]);
      GrownCount(log, evs[..|evs| - 1], mark);
      FoldSnoc(before, r);
      RecordCounts(Fold(before), r, mark);
      hide Fold, NextSeq, ApplyRecord, Counted, Bears;
    }
  }

  /** A marked event of another task makes the batch's marked events more than the task's own. */
  lemma {:induction false} ForeignCounts(items: seq<Item>, k: string, mark: Mark)
    ensures MarkCount(EventsFor(items, k), mark) <= MarkCount(EventsOf(items), mark)
    ensures (exists i :: 0 <= i < |items| && items[i].k != k && Bears(items[i].ev, mark)) ==>
              MarkCount(EventsFor(items, k), mark) < MarkCount(EventsOf(items), mark)
  {
    if items != [] {
      var front, last := items[..|items| - 1], items[|items| - 1];
      ForeignCounts(front, k, mark);
      assert EventsOf(items)[..|items| - 1] == EventsOf(front);
      assert (EventsFor(front, k) + [last.ev])[..|EventsFor(front, k)|] == EventsFor(front, k);
      assert forall i :: 0 <= i < |front| ==> front[i] == items[i];
      hide Bears;
    }
  }

  /**
   With the first task cached, one event of another task that belongs to a turn breaks coherence, and so
   does a completed call of another task that reports its usage.
   */
  lemma ForeignMarkBreaks(s: Store, items: seq<Item>, i: nat, mark: Mark)
    requires Coherent(s) && items != [] && items[0].k in s.cache.entries
    requires i < |items| && items[i].k != items[0].k && Bears(items[i].ev, mark)
    ensures !Coherent(BatchWritten(s, items))
  {
    var k := items[0].k;
    var log, own := LogIn(s, k), EventsFor(items, k);
    RecordsCount(Fold(log), s.logs, items, mark);
    GrownCount(log, own, mark);
    ForeignCounts(items, k, mark);
    hide Coherent, Fold, ApplyAll, ItemRecords, EventsFor, EventsOf, MarkCount, Counted, AppendAll, Bears;
    BatchCoherentIff(s, items);
  }

  lemma {:induction false} ReplayedMaxSeq(p: Proj, recs: Log, i: nat)
    requires i < |recs|
    ensures recs[i].seqNo <= ApplyAll(p, recs).maxSeq
  {
    if i < |recs| - 1 {
      ReplayedMaxSeq(p, recs[..|recs| - 1], i);
    }
  }

  /** The number that the broker gives to one event of a batch. */
  function NumberOf(s: Store, items: seq<Item>, i: nat): int
    requires i < |items|
  {
    NextSeq(LogIn(s, items[i].k)) + |EventsFor(items[..i], items[i].k)|
  }

  /** With the first task cached, a foreign number above that task's own last one breaks coherence. */
  lemma ForeignNumberBreaks(s: Store, items: seq<Item>, i: nat)
    requires Coherent(s) && items != [] && items[0].k in s.cache.entries && i < |items|
    requires NumberOf(s, items, i) >= NextSeq(LogIn(BatchWritten(s, items), items[0].k))
    ensures !Coherent(BatchWritten(s, items))
  {
    var k := items[0].k;
    ItemNumber(s.logs, items, i);
    ReplayedMaxSeq(Fold(LogIn(s, k)), ItemRecords(s.logs, items), i);
    BatchLogs(s, items, k);
    MaxSeqMeaning(LogIn(BatchWritten(s, items), k));
    hide Coherent, Fold, ApplyAll, ItemRecords, EventsFor, AppendAll, InOrder, BatchWritten;
    BatchCoherentIff(s, items);
  }

  /** Every event of another task belongs to a turn, as all events do that the batch route builds. */
  predicate ForeignInTurns(items: seq<Item>) {
    forall i :: 0 <= i < |items| && items[i].k != items[0].k ==> items[i].ev.turnId.Some?
  }

  /**
   A batch whose foreign events belong to turns keeps the store coherent if and only if no other of its
   tasks is cached and, where the first one is, it has no other.
   */
  lemma TurnBatchCoherentIff(s: Store, items: seq<Item>)
    requires Coherent(s) && items != [] && ForeignInTurns(items)
    ensures Coherent(BatchWritten(s, items)) <==>
            OthersUncached(s, items) && (items[0].k in s.cache.entries ==> OfOneTask(items, items[0].k))
  {
    var k := items[0].k;
    hide Coherent, BatchWritten, FirstInStep;
    BatchCoherentIff(s, items);
    if k in s.cache.entries {
      if OfOneTask(items, k) {
        OneTaskBatchKeeps(s, items);
      } else {
        var i :| 0 <= i < |items| && items[i].k != k;
        ForeignMarkBreaks(s, items, i, OfTurns);
      }
    } else {
      assert FirstInStep(s, items) by { UncachedFirstInStep(s, items); }
    }
  }

  lemma UncachedFirstInStep(s: Store, items: seq<Item>)
    requires items != [] && items[0].k !in s.cache.entries
    ensures FirstInStep(s, items)
  {
  }

  /**
   Of any batch that keeps the store coherent with its first task cached: its foreign events belong to
   no turn, report no usage, and carry no number above the first task's own last one.
   */
  lemma CoherentBatchNeeds(s: Store, items: seq<Item>, i: nat)
    requires Coherent(s) && items != [] && items[0].k in s.cache.entries && Coherent(BatchWritten(s, items))
    requires i < |items| && items[i].k != items[0].k
    ensures items[i].k !in s.cache.entries
    ensures items[i].ev.turnId.None? && !(items[i].ev.etype.LlmCompleted? && items[i].ev.payload.usage.Some?)
    ensures NumberOf(s, items, i) < NextSeq(LogIn(BatchWritten(s, items), items[0].k))
  {
    var ev := items[i].ev;
    hide Coherent, BatchWritten, FirstInStep;
    BatchCoherentIff(s, items);
    if ev.turnId.Some? {
      ForeignMarkBreaks(s, items, i, OfTurns);
    } else if ev.etype.LlmCompleted? && ev.payload.usage.Some? {
      ForeignMarkBreaks(s, items, i, UsageOf(ModelOf(ev)));
    } else if NumberOf(s, items, i) >= NextSeq(LogIn(BatchWritten(s, items), items[0].k)) {
      ForeignNumberBreaks(s, items, i);
    }
  }
}
