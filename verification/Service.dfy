/** Task and turn operations on top of the store: read the state, check it, append the event. */
module Service {
  import opened Wrappers
  import opened Events
  import opened Projection
  import opened ProjectionFacts
  import opened BrokerStore
  import opened EventStore
  import opened Lifecycle

  // ---------------------------------------------------------------- events

  function TaskEvent(t: EventType, payload: Payload): Event { Event(t, None, None, payload) }

  function StartedPayload(input: string, group: string): Payload {
    EMPTY_PAYLOAD.(fields := {"user_input", "redo_group", "redo_count"},
                   userInput := Some(input), redoGroup := Some(group), redoCount := Some(0))
  }

  function StartedEvent(turn: int, input: string, group: string): Event {
    Event(TurnStarted, Some(turn), None, StartedPayload(input, group))
  }

  const TURN_FAILED_PAYLOAD := EMPTY_PAYLOAD.(fields := {"error_type", "error_message", "failure_reason"})

  const TOOL_FAILED_PAYLOAD := EMPTY_PAYLOAD.(
    fields := {"tool_call_id", "error_type", "error_message", "attempt", "local_seq", "failure_reason"})

  function TurnFailedEvent(turn: int): Event { Event(TurnFailed, Some(turn), None, TURN_FAILED_PAYLOAD) }

  function ToolFailedEvent(turn: Option<int>, sid: string): Event { Event(ToolFailed, turn, Some(sid), TOOL_FAILED_PAYLOAD) }

  // ---------------------------------------------------------------- task transitions

  lemma TransitionLands(from: TaskState, target: TaskState, t: EventType)
    requires t.IsTaskLevel() && Target(t) == Some(target)
    ensures StateAfter(from, t) == target
    ensures TransitionAllowed(Some(from), t) <==> CanTransition(from, target)
    ensures CanTransition(from, target) <==> t in TaskEventsTaken(from)
  {
    GuardTakes(from, t);
  }

  lemma AppendFolds(log: Log, ev: Event)
    ensures Fold(Append(log, ev)) == ApplyRecord(Fold(log), Record(NextSeq(log), ev))
  {
    FoldSnoc(log, Record(NextSeq(log), ev));
  }

  /** Moves the task to `target` exactly when the table allows it, by appending exactly one event. */
  method TransitionTask(store: BrokerEventStore, k: string, target: TaskState, t: EventType, payload: Payload)
    returns (r: Result<int, StoreError>)
    requires store.Valid()
    requires t.IsTaskLevel() && Target(t) == Some(target)
    modifies store.Footprint()
    ensures store.Valid() && fresh(store.Footprint() - old(store.Footprint()))
    ensures r.Ok? <==> CanTransition(Fold(old(store.LogFor(k))).state, target)
    ensures r.Ok? <==> t in TaskEventsTaken(Fold(old(store.LogFor(k))).state)
    ensures r.Ok? ==> store.logs == old(store.logs)[k := Append(old(store.LogFor(k)), TaskEvent(t, payload))]
                      && Fold(store.LogFor(k)).state == target
    ensures r.Err? ==> store.logs == old(store.logs) && r.error == InvalidTransition
  {
    hide Fold, Coherent, LruOk, CanTransition, TransitionAllowed, Written, Read, TaskEventsTaken;
    var current := store.GetTaskState(k);
    TransitionLands(current, target, t);
    if !CanTransition(current, target) {
      return Err(InvalidTransition);
    }
    AppendFolds(store.LogFor(k), TaskEvent(t, payload));
    r := store.WriteEvent(k, TaskEvent(t, payload));
  }

  /** Cancelling succeeds exactly on a task that has not ended. */
  method CancelTask(store: BrokerEventStore, k: string, payload: Payload) returns (r: Result<int, StoreError>)
    requires store.Valid()
    modifies store.Footprint()
    ensures store.Valid() && fresh(store.Footprint() - old(store.Footprint()))
    ensures r.Ok? <==> !Fold(old(store.LogFor(k))).state.IsTerminal()
    ensures r.Ok? ==> store.logs == old(store.logs)[k := Append(old(store.LogFor(k)), TaskEvent(TaskCanceled, payload))]
                      && Fold(store.LogFor(k)).state == Canceled
    ensures r.Err? ==> store.logs == old(store.logs) && r.error == InvalidTransition
  {
    hide Fold, Coherent, LruOk;
    r := TransitionTask(store, k, Canceled, TaskCanceled, payload);
  }

  // ---------------------------------------------------------------- turns

  lemma TurnOfRecords(log: Log, turn: int)
    requires InOrder(log)
    ensures OfTurn(log, turn) != [] ==> HasTurn(log, turn)
  {
    OfTurnIsSubsequence(log, turn);
    if OfTurn(log, turn) != [] {
      var r := OfTurn(log, turn)[0];
      assert r in OfTurn(log, turn);
      var i :| 0 <= i < |log| && log[i] == r;
    }
  }

  /**
   A turn opened by one event: its id exceeds every earlier one, the task is executing, the turn is
   active, and its redo data is what the event carries.
   */
  ghost predicate OpensTurn(log: Log, log': Log, turn: int, group: string) {
    && (forall t :: HasTurn(log, t) ==> t < turn)
    && Fold(log').state == Executing
    && turn in Fold(log').activeTurns
    && IncompleteOf(Fold(log'), turn) == Some(IncompleteTurn(turn, group, 0))
  }

  lemma StartApplied(p: Proj, seqNo: int, turn: int, input: string, group: string)
    requires TurnSeqsOf(p.byTurn, turn) == [] && (p.state.Ready? || p.state.Claimed?)
    ensures var p' := ApplyRecord(p, Record(seqNo, StartedEvent(turn, input, group)));
            && p'.state == Executing && turn in p'.activeTurns
            && IncompleteOf(p', turn) == Some(IncompleteTurn(turn, group, 0))
  {
    assert AsI32(0) == 0;
    hide Max, AsI32;
  }

  lemma NextTurnOpens(log: Log, input: string, group: string)
    requires InOrder(log) && (Fold(log).state.Ready? || Fold(log).state.Claimed?)
    ensures OpensTurn(log, Append(log, StartedEvent(NextTurnId(log), input, group)), NextTurnId(log), group)
  {
    var turn := NextTurnId(log);
    MaxTurnMeaning(log);
    TurnOfRecords(log, turn);
    ByTurnMeaning(log, turn);
    assert SeqNos([]) == [];
    StartApplied(Fold(log), NextSeq(log), turn, input, group);
    AppendFolds(log, StartedEvent(turn, input, group));
    hide Fold, HasTurn, ApplyRecord, IncompleteOf, Append, OfTurn, StartedEvent, NextSeq;
  }

  lemma StartAccepted(s: Store, k: string, turn: int, input: string, group: string)
    ensures Accepts(s, k, StartedEvent(turn, input, group)) <==>
            CachedState(s, k) in {Some(Ready), Some(Claimed)}
  {
  }

  /**
   Starting a turn fails on an ended task, and otherwise succeeds exactly when the task is ready or
   claimed; then it appends one event, which opens the turn.
   */
  method StartTurn(store: BrokerEventStore, k: string, input: string, redoGroup: Option<string>, generated: string)
    returns (r: Result<int, StoreError>)
    requires store.Valid()
    modifies store.Footprint()
    ensures store.Valid() && fresh(store.Footprint() - old(store.Footprint()))
    ensures r == Err(TaskAlreadyEnded) <==> Fold(old(store.LogFor(k))).state.IsTerminal()
    ensures r.Ok? <==> Fold(old(store.LogFor(k))).state.Ready? || Fold(old(store.LogFor(k))).state.Claimed?
    ensures r.Ok? ==>
      var group, log := GetOr(redoGroup, generated), old(store.LogFor(k));
      && store.logs == old(store.logs)[k := Append(log, StartedEvent(r.value, input, group))]
      && OpensTurn(log, store.LogFor(k), r.value, group)
    ensures r.Err? ==> store.logs == old(store.logs)
  {
    hide Fold, Coherent, LruOk, HasTurn, OpensTurn, Accepts, CachedState, Written, Read, StartedEvent;
    var state := store.GetTaskState(k);
    if state.IsTerminal() {
      return Err(TaskAlreadyEnded);
    }
    var max := store.GetMaxTurnId(k);
    var turn, group := max + 1, GetOr(redoGroup, generated);
    StartAccepted(store.View(), k, turn, input, group);
    if state.Ready? || state.Claimed? {
      CoherentInOrder(store.View(), k);
      NextTurnOpens(store.LogFor(k), input, group);
    }
    var w := store.WriteEvent(k, StartedEvent(turn, input, group));
    r := match w case Ok(_) => Ok(turn) case Err(e) => Err(e);
  }

  /** A failed turn is recorded whatever the task's state. */
  method FailTurn(store: BrokerEventStore, k: string, turn: int) returns (r: Result<int, StoreError>)
    requires store.Valid()
    modifies store.Footprint()
    ensures store.Valid() && fresh(store.Footprint() - old(store.Footprint()))
    ensures r.Ok? && store.logs == old(store.logs)[k := Append(old(store.LogFor(k)), TurnFailedEvent(turn))]
  {
    hide Coherent, LruOk, Written;
    r := store.WriteEvent(k, TurnFailedEvent(turn));
  }

  method RecordToolFailed(store: BrokerEventStore, k: string, turn: Option<int>, sid: string)
    returns (r: Result<int, StoreError>)
    requires store.Valid()
    modifies store.Footprint()
    ensures store.Valid() && fresh(store.Footprint() - old(store.Footprint()))
    ensures r.Ok? && store.logs == old(store.logs)[k := Append(old(store.LogFor(k)), ToolFailedEvent(turn, sid))]
  {
    hide Coherent, LruOk, Written;
    r := store.WriteEvent(k, ToolFailedEvent(turn, sid));
  }
}
