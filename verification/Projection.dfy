/** The in-memory projection of one task: every index is updated event by event. */
module Projection {
  import opened Wrappers
  import opened Events

  datatype TokenStats = TokenStats(calls: int, prompt: int, completion: int, total: int)

  datatype Completed = Completed(start: Record, terminal: EventType, terminalSeq: int)

  datatype Proj = Proj(
    taskType: string, priority: int, state: TaskState,
    maxSeq: int, maxTurnId: int,
    bySeq: map<int, Event>, byTurn: map<int, seq<int>>,
    activeTurns: set<int>,
    activeSteps: map<string, Record>, completedSteps: map<string, Completed>,
    latestSummary: Option<Payload>, summarizedSeq: int, summarizedTurn: int,
    tokens: map<string, TokenStats>, recentTurns: seq<int>)

  const NEW_PROJ := Proj("", 0, Created, 0, 0, map[], map[], {}, map[], map[], None, 0, 0, map[], [])

  function GetOr<T>(o: Option<T>, default: T): T {
    match o
    case None => default
    case Some(v) => v
  }

  /** A cast from 64 to 32 bits keeps the low half, as a signed number. */
  function AsI32(n: int): int {
    (n + 0x8000_0000) % 0x1_0000_0000 - 0x8000_0000
  }

  function Max(a: int, b: int): int { if a >= b then a else b }

  // ---------------------------------------------------------------- one field at a time

  function StateAfter(st: TaskState, t: EventType): TaskState {
    match t
    case TaskCreated => Created
    case TaskReady => Ready
    case TaskClaimed => Claimed
    case TaskBlocked => Blocked
    case TaskSucceeded => Succeeded
    case TaskFailed => Failed
    case TaskCanceled => Canceled
    case TurnStarted => if st.Ready? || st.Claimed? then Executing else st
    case _ => st
  }

  function TurnSeqsOf(byTurn: map<int, seq<int>>, turn: int): seq<int> {
    if turn in byTurn then byTurn[turn] else []
  }

  function ByTurnAfter(byTurn: map<int, seq<int>>, r: Record): map<int, seq<int>> {
    match r.ev.turnId
    case None => byTurn
    case Some(t) => byTurn[t := TurnSeqsOf(byTurn, t) + [r.seqNo]]
  }

  function ActiveTurnsAfter(active: set<int>, ev: Event): set<int> {
    match ev.turnId
    case None => active
    case Some(t) =>
      if ev.etype.TurnStarted? then active + {t}
      else if ev.etype.IsTurnTerminal() then active - {t}
      else active
  }

  function ActiveStepsAfter(active: map<string, Record>, r: Record): map<string, Record> {
    match r.ev.stepId
    case None => active
    case Some(sid) =>
      if r.ev.etype.IsStepStart() then active[sid := r]
      else if r.ev.etype.IsStepTerminal() then active - {sid}
      else active
  }

  function CompletedAfter(done: map<string, Completed>, active: map<string, Record>, r: Record): map<string, Completed> {
    match r.ev.stepId
    case None => done
    case Some(sid) =>
      if r.ev.etype.IsStepTerminal() && sid in active
      then done[sid := Completed(active[sid], r.ev.etype, r.seqNo)] else done
  }

  function ModelOf(ev: Event): string { GetOr(ev.payload.model, "?") }

  function StatsOf(tokens: map<string, TokenStats>, m: string): TokenStats {
    if m in tokens then tokens[m] else TokenStats(0, 0, 0, 0)
  }

  function AddUsage(s: TokenStats, u: Usage): TokenStats {
    TokenStats(s.calls + 1, s.prompt + GetOr(u.prompt, 0), s.completion + GetOr(u.completion, 0), s.total + GetOr(u.total, 0))
  }

  function TokensAfter(tokens: map<string, TokenStats>, ev: Event): map<string, TokenStats> {
    if ev.etype.LlmCompleted? && ev.payload.usage.Some?
    then tokens[ModelOf(ev) := AddUsage(StatsOf(tokens, ModelOf(ev)), ev.payload.usage.value)]
    else tokens
  }

  function ApplyRecord(p: Proj, r: Record): Proj {
    var ev := r.ev;
    p.(taskType := if ev.etype.TaskCreated? then GetOr(ev.payload.taskType, "?") else p.taskType,
       priority := if ev.etype.TaskCreated? then AsI32(GetOr(ev.payload.priority, 0)) else p.priority,
       state := StateAfter(p.state, ev.etype),
       maxSeq := Max(p.maxSeq, r.seqNo),
       maxTurnId := if ev.turnId.Some? then Max(p.maxTurnId, ev.turnId.value) else p.maxTurnId,
       bySeq := p.bySeq[r.seqNo := ev],
       byTurn := ByTurnAfter(p.byTurn, r),
       activeTurns := ActiveTurnsAfter(p.activeTurns, ev),
       activeSteps := ActiveStepsAfter(p.activeSteps, r),
       completedSteps := CompletedAfter(p.completedSteps, p.activeSteps, r),
       latestSummary := if ev.etype.SummaryMarker? then Some(ev.payload) else p.latestSummary,
       summarizedSeq := if ev.etype.SummaryMarker? then GetOr(ev.payload.summarizedSeq, r.seqNo) else p.summarizedSeq,
       summarizedTurn := if ev.etype.SummaryMarker? then GetOr(ev.payload.summarizedTurn, p.summarizedTurn) else p.summarizedTurn,
       tokens := TokensAfter(p.tokens, ev),
       recentTurns := if ev.turnId.Some? then p.recentTurns + [ev.turnId.value] else p.recentTurns)
  }

  /** Which parts of the projection an event of each scope can change at all. */
  lemma ScopeFrames(p: Proj, r: Record)
    ensures var t := r.ev.etype;
            && (!t.TaskCreated? <== !t.IsTaskLevel()) && (!t.SummaryMarker? <== !t.Scope().Session?)
            && (!t.Scope().Task? && !t.Scope().Turn? ==> StateAfter(p.state, t) == p.state)
            && (!t.Scope().Turn? ==> ActiveTurnsAfter(p.activeTurns, r.ev) == p.activeTurns)
            && (!t.Scope().Step? ==> ActiveStepsAfter(p.activeSteps, r) == p.activeSteps
                                     && CompletedAfter(p.completedSteps, p.activeSteps, r) == p.completedSteps
                                     && TokensAfter(p.tokens, r.ev) == p.tokens)
            && (t.Scope().Task? <==> t.IsTaskLevel()) && (t.Scope().Turn? ==> t.IsTurnLevel())
  {
  }

  /** The projection of a whole log. */
  function Fold(log: Log): Proj {
    if log == [] then NEW_PROJ else ApplyRecord(Fold(log[..|log| - 1]), log[|log| - 1])
  }

  lemma FoldSnoc(log: Log, r: Record)
    ensures Fold(log + [r]) == ApplyRecord(Fold(log), r)
  {
    assert (log + [r])[..|log|] == log;
  }

  // ---------------------------------------------------------------- queries

  datatype IncompleteTurn = IncompleteTurn(turnId: int, redoGroup: string, redoCount: int)

  /** The first event indexed under the turn supplies the redo data. */
  function IncompleteOf(p: Proj, turn: int): Option<IncompleteTurn> {
    var seqs := TurnSeqsOf(p.byTurn, turn);
    if seqs != [] && seqs[0] in p.bySeq then
      var pl := p.bySeq[seqs[0]].payload;
      Some(IncompleteTurn(turn, GetOr(pl.redoGroup, "?"), AsI32(GetOr(pl.redoCount, 0))))
    else None
  }

  /** The row of one of the given turns. */
  predicate Listed(p: Proj, turns: set<int>, r: IncompleteTurn) {
    r.turnId in turns && IncompleteOf(p, r.turnId) == Some(r)
  }

  datatype IncompleteStep = IncompleteStep(seqNo: int, turnId: int, stepId: string, startType: EventType, payload: Payload)

  /** The row of one active step; a start event without a turn counts for turn zero. */
  function StepOf(sid: string, r: Record): IncompleteStep {
    IncompleteStep(r.seqNo, GetOr(r.ev.turnId, 0), sid, r.ev.etype, r.ev.payload)
  }

  predicate ListedStep(active: map<string, Record>, s: IncompleteStep) {
    s.stepId in active && s == StepOf(s.stepId, active[s.stepId])
  }

  function TurnEvents(p: Proj, turn: int): seq<Event> {
    EventsAt(p.bySeq, TurnSeqsOf(p.byTurn, turn))
  }

  function EventsAt(bySeq: map<int, Event>, seqs: seq<int>): seq<Event> {
    if seqs == [] then []
    else (if seqs[0] in bySeq then [bySeq[seqs[0]]] else []) + EventsAt(bySeq, seqs[1..])
  }

  datatype StepExecution = StepExecution(stepId: string, stepType: Option<string>, endEvent: Option<EventType>)

  function StepRow(done: map<string, Completed>, ev: Event): seq<StepExecution> {
    if ev.stepId.Some? && ev.etype.IsStepStart() then
      var sid := ev.stepId.value;
      [StepExecution(sid, ev.payload.stepType, if sid in done then Some(done[sid].terminal) else None)]
    else []
  }

  function StepRows(done: map<string, Completed>, evs: seq<Event>): seq<StepExecution> {
    if evs == [] then [] else StepRow(done, evs[0]) + StepRows(done, evs[1..])
  }

  function TurnSteps(p: Proj, turn: int): seq<StepExecution> {
    StepRows(p.completedSteps, TurnEvents(p, turn))
  }

  /** A hash collection hands out its elements in some order. */
  method NextOf<T(==)>(rest: set<T>) returns (x: T)
    requires rest != {}
    ensures x in rest
  {
    x :| x in rest;
  }

  // ---------------------------------------------------------------- the object

  class TaskProjection {
    var taskType: string
    var priority: int
    var state: TaskState
    var maxSeq: int
    var maxTurnId: int
    var bySeq: map<int, Event>
    var byTurn: map<int, seq<int>>
    var activeTurns: set<int>
    var activeSteps: map<string, Record>
    var completedSteps: map<string, Completed>
    var latestSummary: Option<Payload>
    var summarizedSeq: int
    var summarizedTurn: int
    var tokens: map<string, TokenStats>
    var recentTurns: seq<int>

    ghost function View(): Proj
      reads this
    {
      Proj(taskType, priority, state, maxSeq, maxTurnId, bySeq, byTurn, activeTurns, activeSteps, completedSteps,
           latestSummary, summarizedSeq, summarizedTurn, tokens, recentTurns)
    }

    constructor ()
      ensures View() == NEW_PROJ
    {
      taskType, priority, state := "", 0, Created;
      maxSeq, maxTurnId := 0, 0;
      bySeq, byTurn := map[], map[];
      activeTurns, activeSteps, completedSteps := {}, map[], map[];
      latestSummary, summarizedSeq, summarizedTurn := None, 0, 0;
      tokens, recentTurns := map[], [];
    }

    /** The indexes that every event feeds. */
    method Index(r: Record)
      modifies this`maxSeq, this`maxTurnId, this`bySeq, this`byTurn, this`recentTurns
      ensures maxSeq == Max(old(maxSeq), r.seqNo)
      ensures maxTurnId == if r.ev.turnId.Some? then Max(old(maxTurnId), r.ev.turnId.value) else old(maxTurnId)
      ensures bySeq == old(bySeq)[r.seqNo := r.ev]
      ensures byTurn == ByTurnAfter(old(byTurn), r)
      ensures recentTurns == if r.ev.turnId.Some? then old(recentTurns) + [r.ev.turnId.value] else old(recentTurns)
    {
      if r.seqNo > maxSeq {
        maxSeq := r.seqNo;
      }
      bySeq := bySeq[r.seqNo := r.ev];
      if r.ev.turnId.Some? {
        var t := r.ev.turnId.value;
        if t > maxTurnId {
          maxTurnId := t;
        }
        byTurn := byTurn[t := TurnSeqsOf(byTurn, t) + [r.seqNo]];
        recentTurns := recentTurns + [t];
      }
    }

    method ApplyTaskEvent(ev: Event)
      requires ev.etype.IsTaskLevel()
      modifies this`taskType, this`priority, this`state
      ensures state == StateAfter(old(state), ev.etype)
      ensures taskType == if ev.etype.TaskCreated? then GetOr(ev.payload.taskType, "?") else old(taskType)
      ensures priority == if ev.etype.TaskCreated? then AsI32(GetOr(ev.payload.priority, 0)) else old(priority)
    {
      match ev.etype {
        case TaskCreated =>
          taskType := GetOr(ev.payload.taskType, "?");
          priority := AsI32(GetOr(ev.payload.priority, 0));
          state := Created;
        case TaskReady => state := Ready;
        case TaskClaimed => state := Claimed;
        case TaskBlocked => state := Blocked;
        case TaskSucceeded => state := Succeeded;
        case TaskFailed => state := Failed;
        case TaskCanceled => state := Canceled;
      }
    }

    method ApplyTurnEvent(ev: Event)
      requires ev.etype.IsTurnLevel()
      modifies this`state, this`activeTurns
      ensures state == StateAfter(old(state), ev.etype)
      ensures activeTurns == ActiveTurnsAfter(old(activeTurns), ev)
    {
      if ev.etype.TurnStarted? {
        if state.Ready? || state.Claimed? {
          state := Executing;
        }
        if ev.turnId.Some? {
          activeTurns := activeTurns + {ev.turnId.value};
        }
      } else if ev.etype.IsTurnTerminal() && ev.turnId.Some? {
        activeTurns := activeTurns - {ev.turnId.value};
      }
    }

    method ApplyStepEvent(r: Record)
      requires r.ev.etype.Scope().Step?
      modifies this`activeSteps, this`completedSteps, this`tokens
      ensures activeSteps == ActiveStepsAfter(old(activeSteps), r)
      ensures completedSteps == CompletedAfter(old(completedSteps), old(activeSteps), r)
      ensures tokens == TokensAfter(old(tokens), r.ev)
    {
      if r.ev.etype.IsStepStart() {
        OpenStep(r);
      } else {
        CloseStep(r);
        if r.ev.etype.LlmCompleted? && r.ev.payload.usage.Some? {
          var m := ModelOf(r.ev);
          tokens := tokens[m := AddUsage(StatsOf(tokens, m), r.ev.payload.usage.value)];
        }
      }
    }

    method Apply(r: Record)
      modifies this
      ensures View() == ApplyRecord(old(View()), r)
    {
      hide StateAfter, ByTurnAfter, ActiveTurnsAfter, ActiveStepsAfter, CompletedAfter, TokensAfter, AsI32, Max;
      hide EventType.Scope, EventType.IsTaskLevel, EventType.IsTurnLevel;
      ScopeFrames(View(), r);
      var ev := r.ev;
      Index(r);
      match ev.etype.Scope() {
        case Task => ApplyTaskEvent(ev);
        case Turn => ApplyTurnEvent(ev);
        case Step => ApplyStepEvent(r);
        case Session =>
          if ev.etype.SummaryMarker? {
            latestSummary := Some(ev.payload);
            summarizedSeq := GetOr(ev.payload.summarizedSeq, r.seqNo);
            summarizedTurn := GetOr(ev.payload.summarizedTurn, summarizedTurn);
          }
      }
    }

    method OpenStep(r: Record)
      requires r.ev.etype.IsStepStart()
      modifies this`activeSteps
      ensures activeSteps == ActiveStepsAfter(old(activeSteps), r)
    {
      if r.ev.stepId.Some? {
        activeSteps := activeSteps[r.ev.stepId.value := r];
      }
    }

    method CloseStep(r: Record)
      requires r.ev.etype.IsStepTerminal()
      modifies this`activeSteps, this`completedSteps
      ensures activeSteps == ActiveStepsAfter(old(activeSteps), r)
      ensures completedSteps == CompletedAfter(old(completedSteps), old(activeSteps), r)
    {
      if r.ev.stepId.Some? {
        var sid := r.ev.stepId.value;
        if sid in activeSteps {
          completedSteps := completedSteps[sid := Completed(activeSteps[sid], r.ev.etype, r.seqNo)];
        }
        activeSteps := activeSteps - {sid};
      }
    }

    method ListTurnSteps(turn: int) returns (steps: seq<StepExecution>)
      ensures steps == TurnSteps(View(), turn)
    {
      hide EventsAt, StepRow, TurnSeqsOf;
      var evs := EventsAt(bySeq, TurnSeqsOf(byTurn, turn));
      steps := [];
      for i := 0 to |evs|
        invariant steps + StepRows(completedSteps, evs[i..]) == StepRows(completedSteps, evs)
      {
        steps := steps + StepRow(completedSteps, evs[i]);
        assert evs[i..][1..] == evs[i + 1..];
      }
      assert evs[|evs|..] == [];
    }

    /** A hash set lists the active turns in some order; each row carries its own turn id. */
    method ListIncompleteTurns() returns (rows: seq<IncompleteTurn>)
      ensures forall i, j :: 0 <= i < j < |rows| ==> rows[i].turnId != rows[j].turnId
      ensures forall r :: r in rows <==> Listed(View(), activeTurns, r)
    {
      rows := [];
      var rest: set<int> := activeTurns;
      ghost var p := View();
      while rest != {}
        invariant rest <= activeTurns
        invariant forall r :: r in rows <==> Listed(p, activeTurns - rest, r)
        invariant forall i, j :: 0 <= i < j < |rows| ==> rows[i].turnId != rows[j].turnId
        decreases |rest|
      {
        var t := NextOf(rest);
        rest := rest - {t};
        var seqs := TurnSeqsOf(byTurn, t);
        if seqs != [] && seqs[0] in bySeq {
          var pl := bySeq[seqs[0]].payload;
          var row := IncompleteTurn(t, GetOr(pl.redoGroup, "?"), AsI32(GetOr(pl.redoCount, 0)));
          assert IncompleteOf(p, t) == Some(row);
          assert forall i :: 0 <= i < |rows| ==> rows[i] in rows;
          rows := rows + [row];
        }
      }
    }

    method ListIncompleteSteps() returns (rows: seq<IncompleteStep>)
      ensures forall s :: s in rows <==> ListedStep(activeSteps, s)
      ensures forall i, j :: 0 <= i < j < |rows| ==> rows[i].stepId != rows[j].stepId
    {
      rows := [];
      var rest: set<string> := activeSteps.Keys;
      while rest != {}
        invariant rest <= activeSteps.Keys
        invariant forall s :: s in rows <==> s.stepId in activeSteps.Keys - rest && s == StepOf(s.stepId, activeSteps[s.stepId])
        invariant forall i, j :: 0 <= i < j < |rows| ==> rows[i].stepId != rows[j].stepId
        decreases |rest|
      {
        var sid := NextOf(rest);
        rest := rest - {sid};
        assert forall i :: 0 <= i < |rows| ==> rows[i] in rows;
        rows := rows + [StepOf(sid, activeSteps[sid])];
      }
    }
  }
}
