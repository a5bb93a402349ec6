/**
 Crash recovery of one task: every incomplete turn is either handed back for
 a redo or closed, because one of its in-flight steps must not be repeated.
 */
module Recovery {
  import opened Wrappers
  import opened Events
  import opened Projection
  import opened ProjectionFacts
  import opened BrokerStore
  import opened EventStore
  import opened Service

  // ---------------------------------------------------------------- tools

  datatype ToolRecoveryStrategy = ReadOnly | IdempotentWrite | NonIdempotentWrite

  const READ_ONLY_TOOLS := {
    "get_weather", "search", "read_file", "list_directory", "get_order_status",
    "query_database", "fetch_url", "calculate", "parse"}

  const IDEMPOTENT_TOOLS := {"update_config", "set_status", "upsert_record", "create_or_update", "deploy_versioned"}

  const NON_IDEMPOTENT_TOOLS := {
    "send_email", "create_order", "process_payment", "send_notification", "delete_record", "submit_form"}

  function ClassifyTool(name: string): ToolRecoveryStrategy {
    if name in READ_ONLY_TOOLS then ReadOnly
    else if name in IDEMPOTENT_TOOLS then IdempotentWrite
    else if name in NON_IDEMPOTENT_TOOLS then NonIdempotentWrite
    else NonIdempotentWrite
  }

  /** A start event without a tool name is treated as a call of the tool "unknown". */
  predicate Blocks(p: Payload) {
    ClassifyTool(GetOr(p.toolName, "unknown")).NonIdempotentWrite?
  }

  /** A step may be repeated only when its tool is named and on one of the two safe lists. */
  lemma SafeIffListed(p: Payload)
    ensures !Blocks(p) <==> p.toolName.Some? && p.toolName.value in READ_ONLY_TOOLS + IDEMPOTENT_TOOLS
  {
    assert forall name | name in READ_ONLY_TOOLS + IDEMPOTENT_TOOLS :: |name| != |"unknown"|;
  }

  /** The calls that a redo may repeat are those of exactly these tools. */
  lemma Repeatable(p: Payload)
    ensures !Blocks(p) <==> p.toolName.Some? && p.toolName.value in {
              "get_weather", "search", "read_file", "list_directory", "get_order_status",
              "query_database", "fetch_url", "calculate", "parse",
              "update_config", "set_status", "upsert_record", "create_or_update", "deploy_versioned"}
  {
    SafeIffListed(p);
  }

  /** No tool known to change the world on every call is on a safe list, and each of them blocks. */
  lemma WritesAreNeverSafe(name: string)
    requires name in NON_IDEMPOTENT_TOOLS
    ensures name !in READ_ONLY_TOOLS && name !in IDEMPOTENT_TOOLS && ClassifyTool(name) == NonIdempotentWrite
  {
  }

  // ---------------------------------------------------------------- decisions

  datatype RecoveryDecision =
    | SafeToRedo(turnId: int, redoGroup: string, redoCount: int, incompleteSteps: seq<IncompleteStep>)
    | RequiresHumanIntervention(turnId: int, redoGroup: string, blockingSteps: seq<IncompleteStep>)
    | NoRecovery

  function StepsOfTurn(rows: seq<IncompleteStep>, turn: int): (r: seq<IncompleteStep>)
    ensures forall s :: s in r <==> s in rows && s.turnId == turn
  {
    if rows == [] then []
    else (if rows[0].turnId == turn then [rows[0]] else []) + StepsOfTurn(rows[1..], turn)
  }

  /** The steps that block, or those that do not, in the given order. */
  function Chosen(steps: seq<IncompleteStep>, blocking: bool): (r: seq<IncompleteStep>)
    ensures forall s :: s in r <==> s in steps && Blocks(s.payload) == blocking
  {
    if steps == [] then []
    else
      var rest := Chosen(steps[..|steps| - 1], blocking);
      var s := steps[|steps| - 1];
      if Blocks(s.payload) == blocking then rest + [s] else rest
  }

  predicate Distinct(steps: seq<IncompleteStep>) {
    forall i, j :: 0 <= i < j < |steps| ==> steps[i].stepId != steps[j].stepId
  }

  method DecideRecoveryFromSteps(turn: IncompleteTurn, steps: seq<IncompleteStep>) returns (d: RecoveryDecision)
    ensures d == if Chosen(steps, true) == []
                 then SafeToRedo(turn.turnId, turn.redoGroup, turn.redoCount, Chosen(steps, false))
                 else RequiresHumanIntervention(turn.turnId, turn.redoGroup, Chosen(steps, true))
  {
    hide ClassifyTool;
    if steps == [] {
      return SafeToRedo(turn.turnId, turn.redoGroup, turn.redoCount, []);
    }
    var blocking, safe := [], [];
    for i := 0 to |steps|
      invariant blocking == Chosen(steps[..i], true) && safe == Chosen(steps[..i], false)
    {
      assert steps[..i + 1][..i] == steps[..i];
      if ClassifyTool(GetOr(steps[i].payload.toolName, "unknown")).NonIdempotentWrite? {
        blocking := blocking + [steps[i]];
      } else {
        safe := safe + [steps[i]];
      }
    }
    assert steps[..|steps|] == steps;
    if blocking == [] {
      d := SafeToRedo(turn.turnId, turn.redoGroup, turn.redoCount, safe);
    } else {
      d := RequiresHumanIntervention(turn.turnId, turn.redoGroup, blocking);
    }
  }

  // ---------------------------------------------------------------- in-flight steps of a turn

  type Active = map<string, Record>

  predicate InFlight(active: Active, sid: string, turn: int) {
    sid in active && GetOr(active[sid].ev.turnId, 0) == turn
  }

  function Blocking(active: Active, turn: int): set<string> {
    set sid | sid in active && InFlight(active, sid, turn) && Blocks(active[sid].ev.payload)
  }

  predicate BlockedTurn(log: Log, turn: int) {
    Blocking(Fold(log).activeSteps, turn) != {}
  }

  /** The listed ids are exactly the set's, once each. */
  ghost predicate Lists(ids: seq<string>, s: set<string>) {
    NoRepeats(ids) && forall sid :: sid in ids <==> sid in s
  }

  function Ids(steps: seq<IncompleteStep>): seq<string> {
    seq(|steps|, i requires 0 <= i < |steps| => steps[i].stepId)
  }

  lemma {:induction false} StepsOfTurnDistinct(rows: seq<IncompleteStep>, turn: int)
    requires Distinct(rows)
    ensures Distinct(StepsOfTurn(rows, turn))
  {
    if rows != [] {
      var rest := StepsOfTurn(rows[1..], turn);
      assert Distinct(rows[1..]);
      StepsOfTurnDistinct(rows[1..], turn);
      forall j | 0 <= j < |rest| ensures rest[j].stepId != rows[0].stepId {
        assert rest[j] in rows[1..];
        var m :| 0 <= m < |rows[1..]| && rows[1..][m] == rest[j];
        assert rows[m + 1] == rest[j];
      }
    }
  }

  lemma {:induction false} ChosenDistinct(steps: seq<IncompleteStep>, blocking: bool)
    requires Distinct(steps)
    ensures Distinct(Chosen(steps, blocking))
  {
    hide Blocks;
    if steps != [] {
      var before := steps[..|steps| - 1];
      var rest := Chosen(before, blocking);
      ChosenDistinct(before, blocking);
      forall j | 0 <= j < |rest| ensures rest[j].stepId != steps[|steps| - 1].stepId {
        assert rest[j] in before;
        var m :| 0 <= m < |before| && before[m] == rest[j];
        assert steps[m] == rest[j];
      }
    }
  }

  /** The blocking steps found by listing and filtering are the turn's blocking in-flight steps, once each. */
  lemma FoundAreBlocking(active: Active, rows: seq<IncompleteStep>, turn: int)
    requires forall s :: s in rows <==> ListedStep(active, s)
    requires Distinct(rows)
    ensures Lists(Ids(Chosen(StepsOfTurn(rows, turn), true)), Blocking(active, turn))
  {
    var found := Chosen(StepsOfTurn(rows, turn), true);
    StepsOfTurnDistinct(rows, turn);
    ChosenDistinct(StepsOfTurn(rows, turn), true);
    hide Blocks;
    forall sid ensures sid in Ids(found) <==> sid in Blocking(active, turn) {
      if sid in Ids(found) {
        var i :| 0 <= i < |found| && Ids(found)[i] == sid;
        assert found[i] in found;
      }
      if sid in Blocking(active, turn) {
        var s := StepOf(sid, active[sid]);
        assert ListedStep(active, s);
        assert s in found;
        var i :| 0 <= i < |found| && found[i] == s;
        assert Ids(found)[i] == sid;
      }
    }
  }

  // ---------------------------------------------------------------- closing one turn

  /** One tool failure per listed step. */
  function Failures(turn: int, ids: seq<string>): seq<Event> {
    if ids == [] then []
    else Failures(turn, ids[..|ids| - 1]) + [ToolFailedEvent(Some(turn), ids[|ids| - 1])]
  }

  /** What is written to close a blocked turn: its blocking steps fail, and then the turn does. */
  function CloseEvents(turn: int, ids: seq<string>): seq<Event> {
    Failures(turn, ids) + [TurnFailedEvent(turn)]
  }

  function ToSet(ids: seq<string>): set<string> {
    set sid | sid in ids
  }

  lemma AppendAllSnoc(log: Log, evs: seq<Event>, ev: Event)
    ensures AppendAll(log, evs + [ev]) == Append(AppendAll(log, evs), ev)
  {
    assert (evs + [ev])[..|evs|] == evs;
  }

  predicate AllOfTurn(evs: seq<Event>, turn: int) {
    forall i :: 0 <= i < |evs| ==> evs[i].turnId == Some(turn)
  }

  lemma {:induction false} CloseEventsOfTurn(turn: int, ids: seq<string>)
    ensures AllOfTurn(Failures(turn, ids), turn) && AllOfTurn(CloseEvents(turn, ids), turn)
  {
    if ids != [] {
      CloseEventsOfTurn(turn, ids[..|ids| - 1]);
    }
  }

  lemma EvsSnoc(log: Log, r: Record)
    ensures Evs(log + [r]) == Evs(log) + [r.ev]
  {
  }

  lemma AppendOne(log: Log, turn: int, ev: Event)
    requires InOrder(log) && ev.turnId == Some(turn)
    ensures var log' := Append(log, ev);
            && Evs(OfTurn(log', turn)) == Evs(OfTurn(log, turn)) + [ev]
            && (forall u :: u != turn ==> OfTurn(log', u) == OfTurn(log, u))
  {
    assert Append(log, ev)[..|log|] == log;
    EvsSnoc(OfTurn(log, turn), Record(NextSeq(log), ev));
    hide NextSeq, InOrder, Evs;
  }

  lemma {:induction false} AppendsOnlyTurn(log: Log, turn: int, evs: seq<Event>)
    requires InOrder(log) && AllOfTurn(evs, turn)
    ensures var log' := AppendAll(log, evs);
            && log <= log' && InOrder(log')
            && (forall i :: |log| <= i < |log'| ==> log'[i].ev.turnId == Some(turn))
  {
    hide OfTurn, InOrder, NextSeq;
    if evs != [] {
      var before, ev := evs[..|evs| - 1], evs[|evs| - 1];
      AppendsOnlyTurn(log, turn, before);
      AppendInOrder(AppendAll(log, before), ev);
    }
  }

  /** Appending events of one turn extends that turn's events by them and no other turn's. */
  lemma {:induction false} AppendTurnEvents(log: Log, turn: int, evs: seq<Event>)
    requires InOrder(log) && AllOfTurn(evs, turn)
    ensures Evs(OfTurn(AppendAll(log, evs), turn)) == Evs(OfTurn(log, turn)) + evs
    ensures forall u :: u != turn ==> OfTurn(AppendAll(log, evs), u) == OfTurn(log, u)
  {
    hide OfTurn, InOrder, Append, Evs;
    if evs != [] {
      var before, ev := evs[..|evs| - 1], evs[|evs| - 1];
      AppendTurnEvents(log, turn, before);
      AppendsOnlyTurn(log, turn, before);
      AppendOne(AppendAll(log, before), turn, ev);
      assert before + [ev] == evs;
    }
  }

  lemma ToolFailureFolds(log: Log, turn: int, sid: string)
    ensures var p, p' := Fold(log), Fold(Append(log, ToolFailedEvent(Some(turn), sid)));
            p'.activeTurns == p.activeTurns && p'.activeSteps == p.activeSteps - {sid}
  {
    AppendFolds(log, ToolFailedEvent(Some(turn), sid));
  }

  lemma TurnFailureFolds(log: Log, turn: int)
    ensures var p, p' := Fold(log), Fold(Append(log, TurnFailedEvent(turn)));
            p'.activeTurns == p.activeTurns - {turn} && p'.activeSteps == p.activeSteps
  {
    AppendFolds(log, TurnFailedEvent(turn));
  }

  lemma WithoutMore(active: Active, ids: seq<string>)
    requires ids != []
    ensures active - ToSet(ids[..|ids| - 1]) - {ids[|ids| - 1]} == active - ToSet(ids)
  {
    assert ids == ids[..|ids| - 1] + [ids[|ids| - 1]];
    assert ToSet(ids) == ToSet(ids[..|ids| - 1]) + {ids[|ids| - 1]};
  }

  lemma {:induction false} FailuresFold(log: Log, turn: int, ids: seq<string>)
    ensures var p, p' := Fold(log), Fold(AppendAll(log, Failures(turn, ids)));
            p'.activeTurns == p.activeTurns && p'.activeSteps == p.activeSteps - ToSet(ids)
  {
    if ids != [] {
      var before, sid := ids[..|ids| - 1], ids[|ids| - 1];
      FailuresFold(log, turn, before);
      AppendAllSnoc(log, Failures(turn, before), ToolFailedEvent(Some(turn), sid));
      ToolFailureFolds(AppendAll(log, Failures(turn, before)), turn, sid);
      WithoutMore(Fold(log).activeSteps, ids);
      hide Fold, AppendAll, ToolFailedEvent, ToSet;
    } else {
      assert ToSet(ids) == {};
    }
  }

  lemma CloseFolds(log: Log, turn: int, ids: seq<string>)
    ensures var p, p' := Fold(log), Fold(AppendAll(log, CloseEvents(turn, ids)));
            p'.activeTurns == p.activeTurns - {turn} && p'.activeSteps == p.activeSteps - ToSet(ids)
  {
    FailuresFold(log, turn, ids);
    AppendAllSnoc(log, Failures(turn, ids), TurnFailedEvent(turn));
    TurnFailureFolds(AppendAll(log, Failures(turn, ids)), turn);
  }

  // ---------------------------------------------------------------- progress

  function BlockingIn(active: Active, turns: set<int>): set<string> {
    set sid | sid in active && GetOr(active[sid].ev.turnId, 0) in turns && Blocks(active[sid].ev.payload)
  }

  /** The turn's events were extended by exactly its closing events. */
  ghost predicate ClosedIn(before: Log, after: Log, turn: int) {
    exists ids ::
      && Lists(ids, Blocking(Fold(before).activeSteps, turn))
      && Evs(OfTurn(after, turn)) == Evs(OfTurn(before, turn)) + CloseEvents(turn, ids)
  }

  /** What has happened to the log once the given turns have been closed, and nothing else. */
  ghost predicate Progress(before: Log, after: Log, closed: set<int>) {
    && before <= after && InOrder(after)
    && Fold(after).activeTurns == Fold(before).activeTurns - closed
    && Fold(after).activeSteps == Fold(before).activeSteps - BlockingIn(Fold(before).activeSteps, closed)
    && (forall u :: u !in closed ==> OfTurn(after, u) == OfTurn(before, u))
    && (forall u :: u in closed ==> ClosedIn(before, after, u))
    && (forall i :: |before| <= i < |after| ==> after[i].ev.turnId.Some? && after[i].ev.turnId.value in closed)
  }

  lemma NothingClosed(log: Log)
    requires InOrder(log)
    ensures Progress(log, log, {})
  {
    hide Fold, OfTurn, ClosedIn;
  }

  /** Closing other turns does not touch a turn's own blocking steps. */
  lemma OthersBlockingStays(active: Active, closed: set<int>, turn: int)
    requires turn !in closed
    ensures Blocking(active - BlockingIn(active, closed), turn) == Blocking(active, turn)
    ensures active - BlockingIn(active, closed) - Blocking(active, turn) == active - BlockingIn(active, closed + {turn})
  {
    hide Blocks;
  }

  lemma CloseTurnEvents(before: Log, after: Log, closed: set<int>, turn: int, ids: seq<string>)
    requires Progress(before, after, closed) && turn !in closed
    requires Lists(ids, Blocking(Fold(before).activeSteps, turn))
    ensures var after' := AppendAll(after, CloseEvents(turn, ids));
            && before <= after' && InOrder(after')
            && (forall u :: u !in closed + {turn} ==> OfTurn(after', u) == OfTurn(before, u))
            && (forall u :: u in closed + {turn} ==> ClosedIn(before, after', u))
            && (forall i :: |before| <= i < |after'| ==>
                  after'[i].ev.turnId.Some? && after'[i].ev.turnId.value in closed + {turn})
  {
    var after' := AppendAll(after, CloseEvents(turn, ids));
    CloseEventsOfTurn(turn, ids);
    AppendTurnEvents(after, turn, CloseEvents(turn, ids));
    AppendsOnlyTurn(after, turn, CloseEvents(turn, ids));
    hide Fold, OfTurn, AppendAll, CloseEvents, InOrder, Blocking, Evs, Lists, AllOfTurn;
    forall u | u in closed + {turn} ensures ClosedIn(before, after', u) {
      if u == turn {
        assert OfTurn(after, turn) == OfTurn(before, turn);
      } else {
        assert ClosedIn(before, after, u);
        var us :| Lists(us, Blocking(Fold(before).activeSteps, u))
                  && Evs(OfTurn(after, u)) == Evs(OfTurn(before, u)) + CloseEvents(u, us);
        assert OfTurn(after', u) == OfTurn(after, u);
      }
    }
    forall i | |before| <= i < |after'| ensures after'[i].ev.turnId.Some? && after'[i].ev.turnId.value in closed + {turn} {
      if i < |after| {
        assert after'[i] == after[i];
      }
    }
  }

  lemma CloseTurnFolds(before: Log, after: Log, closed: set<int>, turn: int, ids: seq<string>)
    requires Fold(after).activeTurns == Fold(before).activeTurns - closed
    requires Fold(after).activeSteps == Fold(before).activeSteps - BlockingIn(Fold(before).activeSteps, closed)
    requires turn !in closed && ToSet(ids) == Blocking(Fold(before).activeSteps, turn)
    ensures var p, p' := Fold(before), Fold(AppendAll(after, CloseEvents(turn, ids)));
            && p'.activeTurns == p.activeTurns - (closed + {turn})
            && p'.activeSteps == p.activeSteps - BlockingIn(p.activeSteps, closed + {turn})
  {
    OthersBlockingStays(Fold(before).activeSteps, closed, turn);
    CloseFolds(after, turn, ids);
    hide Fold, AppendAll, CloseEvents, Blocking, BlockingIn, ToSet;
  }

  lemma CloseTurn(before: Log, after: Log, closed: set<int>, turn: int, ids: seq<string>)
    requires Progress(before, after, closed) && turn !in closed
    requires Lists(ids, Blocking(Fold(after).activeSteps, turn))
    ensures Progress(before, AppendAll(after, CloseEvents(turn, ids)), closed + {turn})
  {
    OthersBlockingStays(Fold(before).activeSteps, closed, turn);
    CloseTurnEvents(before, after, closed, turn, ids);
    assert ToSet(ids) == Blocking(Fold(after).activeSteps, turn) by {
      hide Fold, Blocking, NoRepeats, Progress;
    }
    hide Fold, OfTurn, AppendAll, CloseEvents, InOrder, Blocking, BlockingIn, Lists, ToSet, ClosedIn, Evs;
    CloseTurnFolds(before, after, closed, turn, ids);
  }

  // ---------------------------------------------------------------- redo contexts

  datatype RedoContext = RedoContext(taskId: string, turnId: int, redoGroup: string, redoCount: int, userInput: string)

  function FirstStarted(evs: seq<Event>): Option<Event> {
    if evs == [] then None
    else if evs[0].etype.TurnStarted? then Some(evs[0])
    else FirstStarted(evs[1..])
  }

  /** The redo count is a 32-bit number, and its increment wraps. */
  function BuildRedoContext(k: string, turn: IncompleteTurn, evs: seq<Event>): Option<RedoContext> {
    match FirstStarted(evs)
    case None => None
    case Some(ev) =>
      Some(RedoContext(k, turn.turnId, turn.redoGroup, AsI32(turn.redoCount + 1), GetOr(ev.payload.userInput, "")))
  }

  /** The context handed back for a turn. */
  function ContextOf(k: string, records: Log, turn: int): Option<RedoContext> {
    match RowOf(records, turn)
    case None => None
    case Some(row) => BuildRedoContext(k, row, Evs(records))
  }

  lemma {:induction false} StartedIsFound(evs: seq<Event>, i: nat)
    requires i < |evs| && evs[i].etype.TurnStarted?
    ensures FirstStarted(evs).Some?
  {
    if i > 0 {
      StartedIsFound(evs[1..], i - 1);
    }
  }

  /** An active turn has started, so it can always be handed back. */
  lemma ActiveHasContext(k: string, log: Log, turn: int)
    requires InOrder(log) && turn in Fold(log).activeTurns
    ensures IncompleteOf(Fold(log), turn).Some? && ContextOf(k, OfTurn(log, turn), turn).Some?
  {
    ActiveTurnsMeaning(log, turn);
    RowMeaning(log, turn);
    OfTurnIsSubsequence(log, turn);
    var i := Last(log, TurnMoves(turn)).value;
    var o := OfTurn(log, turn);
    assert log[i] in o;
    var j :| 0 <= j < |o| && o[j] == log[i];
    StartedIsFound(Evs(o), j);
  }

  // ---------------------------------------------------------------- recovery as a relation

  /** The turns of `turns` are queued, once each, with the context of the given log. */
  ghost predicate Queued(k: string, log: Log, turns: set<int>, queue: seq<RedoContext>) {
    && (forall i, j :: 0 <= i < j < |queue| ==> queue[i].turnId != queue[j].turnId)
    && (forall c :: c in queue <==> c.turnId in turns && ContextOf(k, OfTurn(log, c.turnId), c.turnId) == Some(c))
  }

  function BlockedAmong(log: Log, turns: set<int>): set<int> {
    set t | t in turns && BlockedTurn(log, t)
  }

  /** The whole effect of a recovery: the blocked turns are closed, the others are handed back. */
  ghost predicate Recovered(k: string, before: Log, after: Log, queue: seq<RedoContext>) {
    var active := Fold(before).activeTurns;
    var blocked := BlockedAmong(before, active);
    Progress(before, after, blocked) && Queued(k, before, active - blocked, queue)
  }

  lemma PushQueued(k: string, log: Log, turns: set<int>, queue: seq<RedoContext>, c: RedoContext)
    requires Queued(k, log, turns, queue) && c.turnId !in turns
    requires ContextOf(k, OfTurn(log, c.turnId), c.turnId) == Some(c)
    ensures Queued(k, log, turns + {c.turnId}, queue + [c])
  {
    hide ContextOf, OfTurn;
    assert forall i :: 0 <= i < |queue| ==> queue[i] in queue;
  }

  // ---------------------------------------------------------------- recovery as a program

  /** No log but that of `k` differs. */
  ghost predicate OnlyLog(a: map<string, Log>, b: map<string, Log>, k: string) {
    forall j :: j != k ==> LogOf(a, j) == LogOf(b, j)
  }

  lemma OnlyLogSame(a: map<string, Log>, k: string)
    ensures OnlyLog(a, a, k)
  {
  }

  lemma OnlyLogTrans(a: map<string, Log>, b: map<string, Log>, c: map<string, Log>, k: string)
    requires OnlyLog(a, b, k) && OnlyLog(b, c, k)
    ensures OnlyLog(a, c, k)
  {
    forall j | j != k ensures LogOf(a, j) == LogOf(c, j) {
      assert LogOf(a, j) == LogOf(b, j);
    }
  }

  lemma OnlyLogThen(a: map<string, Log>, b: map<string, Log>, k: string, log: Log)
    requires OnlyLog(a, b, k)
    ensures OnlyLog(a, b[k := log], k)
  {
    forall j | j != k ensures LogOf(a, j) == LogOf(b[k := log], j) {
      assert LogOf(a, j) == LogOf(b, j);
    }
  }

  method SkipNonIdempotentStep(store: BrokerEventStore, k: string, turn: int, step: IncompleteStep)
    returns (r: Result<int, StoreError>)
    requires store.Valid()
    modifies store.Footprint()
    ensures store.Valid() && fresh(store.Footprint() - old(store.Footprint()))
    ensures r.Ok? && store.LogFor(k) == Append(old(store.LogFor(k)), ToolFailedEvent(Some(turn), step.stepId))
    ensures OnlyLog(old(store.logs), store.logs, k)
  {
    hide Coherent, LruOk, ToolFailedEvent;
    r := RecordToolFailed(store, k, Some(turn), step.stepId);
  }

  lemma OneMoreFailure(log: Log, turn: int, ids: seq<string>, i: nat)
    requires i < |ids|
    ensures Append(AppendAll(log, Failures(turn, ids[..i])), ToolFailedEvent(Some(turn), ids[i]))
            == AppendAll(log, Failures(turn, ids[..i + 1]))
  {
    assert ids[..i + 1][..i] == ids[..i];
    AppendAllSnoc(log, Failures(turn, ids[..i]), ToolFailedEvent(Some(turn), ids[i]));
  }

  method FailSteps(store: BrokerEventStore, k: string, turn: int, blocking: seq<IncompleteStep>)
    returns (r: Result<int, StoreError>)
    requires store.Valid()
    modifies store.Footprint()
    ensures store.Valid() && fresh(store.Footprint() - old(store.Footprint()))
    ensures r.Ok? && store.LogFor(k) == AppendAll(old(store.LogFor(k)), Failures(turn, Ids(blocking)))
    ensures OnlyLog(old(store.logs), store.logs, k)
  {
    ghost var log := store.LogFor(k);
    ghost var ids := Ids(blocking);
    assert AppendAll(log, Failures(turn, ids[..0])) == log;
    hide Coherent, LruOk, ToolFailedEvent, OnlyLog, LogOf, AppendAll, Append, Failures;
    OnlyLogSame(store.logs, k);
    r := Ok(0);
    for i := 0 to |blocking|
      invariant store.Valid() && fresh(store.Footprint() - old(store.Footprint()))
      invariant r.Ok? && store.LogFor(k) == AppendAll(log, Failures(turn, ids[..i]))
      invariant OnlyLog(old(store.logs), store.logs, k)
    {
      ghost var mid := store.logs;
      r := SkipNonIdempotentStep(store, k, turn, blocking[i]);
      OneMoreFailure(log, turn, ids, i);
      OnlyLogTrans(old(store.logs), mid, store.logs, k);
    }
    assert ids[..|ids|] == ids;
  }

  method FailTurnWithNonIdempotentBlock(store: BrokerEventStore, k: string, turn: int, blocking: seq<IncompleteStep>)
    returns (r: Result<int, StoreError>)
    requires store.Valid()
    modifies store.Footprint()
    ensures store.Valid() && fresh(store.Footprint() - old(store.Footprint()))
    ensures r.Ok? && store.LogFor(k) == AppendAll(old(store.LogFor(k)), CloseEvents(turn, Ids(blocking)))
    ensures OnlyLog(old(store.logs), store.logs, k)
  {
    hide Coherent, LruOk, TurnFailedEvent, OnlyLog, AppendAll, Append, Failures;
    ghost var log := store.LogFor(k);
    r := FailSteps(store, k, turn, blocking);
    ghost var mid := store.logs;
    r := FailTurn(store, k, turn);
    AppendAllSnoc(log, Failures(turn, Ids(blocking)), TurnFailedEvent(turn));
    OnlyLogThen(old(store.logs), mid, k, store.LogFor(k));
  }

  method DecideTurnRecovery(store: BrokerEventStore, k: string, turn: IncompleteTurn) returns (d: RecoveryDecision)
    requires store.Valid()
    modifies store.Footprint()
    ensures store.Valid() && fresh(store.Footprint() - old(store.Footprint())) && store.logs == old(store.logs)
    ensures d.SafeToRedo? <==> !BlockedTurn(store.LogFor(k), turn.turnId)
    ensures !d.SafeToRedo? ==>
              d.RequiresHumanIntervention? && d.turnId == turn.turnId
              && Lists(Ids(d.blockingSteps), Blocking(Fold(store.LogFor(k)).activeSteps, turn.turnId))
  {
    hide Coherent, LruOk, Fold, Blocking, Blocks, NoRepeats;
    var _ := store.GetTurnEvents(k, turn.turnId);
    var all := store.GetIncompleteSteps(k);
    FoundAreBlocking(Fold(store.LogFor(k)).activeSteps, all, turn.turnId);
    d := DecideRecoveryFromSteps(turn, StepsOfTurn(all, turn.turnId));
    ListsEmpty(Ids(Chosen(StepsOfTurn(all, turn.turnId), true)), Blocking(Fold(store.LogFor(k)).activeSteps, turn.turnId));
  }

  lemma ListsEmpty(ids: seq<string>, s: set<string>)
    requires Lists(ids, s)
    ensures ids == [] <==> s == {}
  {
    if ids != [] {
      assert ids[0] in ids;
    }
  }

  function TurnsOf(rows: seq<IncompleteTurn>): set<int> {
    set r | r in rows :: r.turnId
  }

  lemma TurnsOfSnoc(rows: seq<IncompleteTurn>, i: nat)
    requires i < |rows|
    requires forall a, b :: 0 <= a < b < |rows| ==> rows[a].turnId != rows[b].turnId
    ensures TurnsOf(rows[..i + 1]) == TurnsOf(rows[..i]) + {rows[i].turnId}
    ensures rows[i].turnId !in TurnsOf(rows[..i])
  {
    assert rows[..i + 1] == rows[..i] + [rows[i]];
    assert rows[i] in rows[..i + 1];
  }

  /** Halfway through: the turns seen so far are dealt with. */
  ghost predicate Halfway(k: string, before: Log, now: Log, seen: set<int>, queue: seq<RedoContext>) {
    && Progress(before, now, BlockedAmong(before, seen))
    && Queued(k, before, seen - BlockedAmong(before, seen), queue)
  }

  /** A turn not yet seen is as it was. */
  lemma UnseenAsBefore(k: string, before: Log, now: Log, seen: set<int>, queue: seq<RedoContext>, turn: int)
    requires Halfway(k, before, now, seen, queue) && turn !in seen && InOrder(before)
    ensures Blocking(Fold(now).activeSteps, turn) == Blocking(Fold(before).activeSteps, turn)
    ensures BlockedTurn(now, turn) <==> BlockedTurn(before, turn)
    ensures OfTurn(now, turn) == OfTurn(before, turn)
    ensures IncompleteOf(Fold(now), turn) == IncompleteOf(Fold(before), turn)
  {
    OthersBlockingStays(Fold(before).activeSteps, BlockedAmong(before, seen), turn);
    RowMeaning(before, turn);
    RowMeaning(now, turn);
    hide Fold, OfTurn, Blocking, BlockingIn, InOrder, IncompleteOf, RowOf, ClosedIn, Queued;
  }

  lemma BlockedAmongSnoc(log: Log, seen: set<int>, turn: int)
    requires turn !in seen
    ensures var blocked := BlockedAmong(log, seen);
            if BlockedTurn(log, turn)
            then BlockedAmong(log, seen + {turn}) == blocked + {turn} && seen + {turn} - (blocked + {turn}) == seen - blocked
            else BlockedAmong(log, seen + {turn}) == blocked && seen + {turn} - blocked == (seen - blocked) + {turn}
  {
    hide BlockedTurn;
  }

  lemma SeeBlocked(k: string, before: Log, now: Log, seen: set<int>, queue: seq<RedoContext>, turn: int, ids: seq<string>)
    requires Halfway(k, before, now, seen, queue) && turn !in seen && InOrder(before)
    requires BlockedTurn(now, turn) && Lists(ids, Blocking(Fold(now).activeSteps, turn))
    ensures Halfway(k, before, AppendAll(now, CloseEvents(turn, ids)), seen + {turn}, queue)
  {
    UnseenAsBefore(k, before, now, seen, queue, turn);
    BlockedAmongSnoc(before, seen, turn);
    assert turn !in BlockedAmong(before, seen);
    hide Progress, Queued, Lists, BlockedTurn, BlockedAmong, Blocking, Fold, OfTurn, AppendAll, CloseEvents, InOrder, IncompleteOf;
    CloseTurn(before, now, BlockedAmong(before, seen), turn, ids);
  }

  lemma SeeSafe(k: string, before: Log, now: Log, seen: set<int>, queue: seq<RedoContext>, c: RedoContext)
    requires Halfway(k, before, now, seen, queue) && c.turnId !in seen && InOrder(before)
    requires !BlockedTurn(now, c.turnId) && ContextOf(k, OfTurn(now, c.turnId), c.turnId) == Some(c)
    ensures Halfway(k, before, now, seen + {c.turnId}, queue + [c])
  {
    UnseenAsBefore(k, before, now, seen, queue, c.turnId);
    BlockedAmongSnoc(before, seen, c.turnId);
    hide Progress, Queued, BlockedTurn, BlockedAmong, Blocking, Fold, OfTurn, InOrder, ContextOf, IncompleteOf;
    PushQueued(k, before, seen - BlockedAmong(before, seen), queue, c);
  }

  method QueueRedo(store: BrokerEventStore, k: string, turn: IncompleteTurn) returns (ctx: Option<RedoContext>)
    requires store.Valid()
    modifies store.Footprint()
    ensures store.Valid() && fresh(store.Footprint() - old(store.Footprint())) && store.logs == old(store.logs)
    ensures ctx == BuildRedoContext(k, turn, Evs(OfTurn(store.LogFor(k), turn.turnId)))
  {
    hide Coherent, LruOk, Fold;
    var evs := store.GetTurnEvents(k, turn.turnId);
    ctx := BuildRedoContext(k, turn, evs);
  }

  lemma ContextReady(k: string, before: Log, now: Log, seen: set<int>, queue: seq<RedoContext>, row: IncompleteTurn)
    requires Halfway(k, before, now, seen, queue) && row.turnId !in seen && InOrder(before)
    requires Listed(Fold(before), Fold(before).activeTurns, row)
    ensures var ctx := BuildRedoContext(k, row, Evs(OfTurn(now, row.turnId)));
            && ctx.Some? && ctx.value.turnId == row.turnId
            && ContextOf(k, OfTurn(now, row.turnId), row.turnId) == ctx
  {
    UnseenAsBefore(k, before, now, seen, queue, row.turnId);
    RowMeaning(before, row.turnId);
    ActiveHasContext(k, before, row.turnId);
    hide Halfway, Fold, OfTurn, InOrder, RowOf, FirstStarted, IncompleteOf;
  }

  /** One turn of the loop: hand the turn back, or close it. */
  method RecoverTurn(store: BrokerEventStore, k: string, row: IncompleteTurn, queue: seq<RedoContext>,
                     ghost before: Log, ghost seen: set<int>)
    returns (r: Result<seq<RedoContext>, StoreError>)
    requires store.Valid() && InOrder(before)
    requires Halfway(k, before, store.LogFor(k), seen, queue) && row.turnId !in seen
    requires Listed(Fold(before), Fold(before).activeTurns, row)
    modifies store.Footprint()
    ensures store.Valid() && fresh(store.Footprint() - old(store.Footprint()))
    ensures OnlyLog(old(store.logs), store.logs, k)
    ensures r.Ok? && Halfway(k, before, store.LogFor(k), seen + {row.turnId}, r.value)
  {
    hide Coherent, LruOk, Fold, OfTurn, InOrder, Halfway, BlockedTurn, Lists, ContextOf, Blocking, BuildRedoContext, Listed, OnlyLog;
    ContextReady(k, before, store.LogFor(k), seen, queue, row);
    OnlyLogSame(store.logs, k);
    var decision := DecideTurnRecovery(store, k, row);
    r := Ok(queue);
    match decision {
      case SafeToRedo(_, _, _, _) =>
        var ctx := QueueRedo(store, k, row);
        if ctx.Some? {
          SeeSafe(k, before, store.LogFor(k), seen, queue, ctx.value);
          r := Ok(queue + [ctx.value]);
        }
      case RequiresHumanIntervention(turn, _, blocking) =>
        SeeBlocked(k, before, store.LogFor(k), seen, queue, turn, Ids(blocking));
        var w := FailTurnWithNonIdempotentBlock(store, k, turn, blocking);
        r := match w case Ok(_) => Ok(queue) case Err(e) => Err(e);
      case NoRecovery =>
    }
  }

  lemma StartHalfway(k: string, log: Log)
    requires InOrder(log)
    ensures Halfway(k, log, log, {}, [])
  {
    NothingClosed(log);
    assert BlockedAmong(log, {}) == {};
    hide Progress, BlockedTurn;
  }

  lemma RowsAreActive(k: string, log: Log, rows: seq<IncompleteTurn>)
    requires InOrder(log)
    requires forall r :: r in rows <==> Listed(Fold(log), Fold(log).activeTurns, r)
    ensures TurnsOf(rows) == Fold(log).activeTurns
  {
    forall t | t in Fold(log).activeTurns ensures t in TurnsOf(rows) {
      ActiveHasContext(k, log, t);
      assert IncompleteOf(Fold(log), t).value in rows;
    }
  }

  method RecoverTurns(store: BrokerEventStore, k: string, rows: seq<IncompleteTurn>)
    returns (r: Result<seq<RedoContext>, StoreError>)
    requires store.Valid()
    requires forall i :: 0 <= i < |rows| ==> Listed(Fold(store.LogFor(k)), Fold(store.LogFor(k)).activeTurns, rows[i])
    requires forall i, j :: 0 <= i < j < |rows| ==> rows[i].turnId != rows[j].turnId
    modifies store.Footprint()
    ensures store.Valid() && fresh(store.Footprint() - old(store.Footprint()))
    ensures OnlyLog(old(store.logs), store.logs, k)
    ensures r.Ok? && Halfway(k, old(store.LogFor(k)), store.LogFor(k), TurnsOf(rows), r.value)
  {
    ghost var before := store.LogFor(k);
    CoherentInOrder(store.View(), k);
    StartHalfway(k, before);
    hide Coherent, LruOk, Fold, OfTurn, InOrder, Halfway, TurnsOf, Listed, OnlyLog;
    OnlyLogSame(store.logs, k);
    NoTurns(rows);
    var queue := [];
    for i := 0 to |rows|
      invariant store.Valid() && fresh(store.Footprint() - old(store.Footprint()))
      invariant OnlyLog(old(store.logs), store.logs, k)
      invariant Halfway(k, before, store.LogFor(k), TurnsOf(rows[..i]), queue)
    {
      TurnsOfSnoc(rows, i);
      ghost var mid := store.logs;
      var more := RecoverTurn(store, k, rows[i], queue, before, TurnsOf(rows[..i]));
      match more {
        case Ok(q) => queue := q;
        case Err(_) => return more;
      }
      OnlyLogTrans(old(store.logs), mid, store.logs, k);
    }
    assert rows[..|rows|] == rows;
    r := Ok(queue);
  }

  lemma NoTurns(rows: seq<IncompleteTurn>)
    ensures TurnsOf(rows[..0]) == {}
  {
  }

  /**
   Recovers a task: every incomplete turn is dealt with as `Recovered` says, no turn is handed back
   twice, and no other task's log is touched.
   */
  method RecoverTask(store: BrokerEventStore, k: string) returns (r: Result<seq<RedoContext>, StoreError>)
    requires store.Valid()
    modifies store.Footprint()
    ensures store.Valid() && fresh(store.Footprint() - old(store.Footprint()))
    ensures r.Ok? && Recovered(k, old(store.LogFor(k)), store.LogFor(k), r.value)
    ensures forall i, j :: 0 <= i < j < |r.value| ==> r.value[i].turnId != r.value[j].turnId
    ensures OnlyLog(old(store.logs), store.logs, k)
  {
    ghost var before := store.LogFor(k);
    CoherentInOrder(store.View(), k);
    StartHalfway(k, before);
    OnlyLogSame(store.logs, k);
    var rows := store.GetIncompleteTurns(k);
    RowsAreActive(k, before, rows);
    hide Coherent, LruOk, Fold, OfTurn, InOrder, Progress, Queued, BlockedAmong, Listed, OnlyLog;
    if rows == [] {
      return Ok([]);
    }
    r := RecoverTurns(store, k, rows);
  }
}
