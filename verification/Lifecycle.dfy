/** What the write guard keeps true of a task's log, over every sequence of guarded writes. */
module Lifecycle {
  import opened Wrappers
  import opened Events
  import opened Projection
  import opened ProjectionFacts

  function Count(log: Log, t: EventType): nat {
    if log == [] then 0
    else Count(log[..|log| - 1], t) + if log[|log| - 1].ev.etype == t then 1 else 0
  }

  function TerminalCount(log: Log): nat {
    Count(log, TaskSucceeded) + Count(log, TaskFailed) + Count(log, TaskCanceled)
  }

  /** Every event after the first passed the guard against the state of what precedes it. */
  predicate Guarded(log: Log) {
    log == [] ||
    (&& Guarded(log[..|log| - 1])
     && (|log| == 1 ==> log[0].ev.etype.TaskCreated?)
     && (|log| > 1 ==> TransitionAllowed(Some(Fold(log[..|log| - 1]).state), log[|log| - 1].ev.etype)))
  }

  /** How the state fixes the counts of ready, started and blocked events. */
  predicate CountsFit(st: TaskState, ready: nat, started: nat, blocked: nat) {
    match st
    case Created => ready == 0 && started == 0 && blocked == 0
    case Ready => ready == blocked + 1 && started == blocked
    case Claimed => ready == blocked + 1 && started == blocked
    case Executing => ready == blocked + 1 && started == blocked + 1
    case Blocked => ready == blocked && started == blocked
    case _ => blocked <= started <= ready <= blocked + 1
  }

  function One(b: bool): nat { if b then 1 else 0 }

  /** One guarded event moves the state and the counts together. */
  lemma GuardedStep(st: TaskState, t: EventType, ready: nat, started: nat, blocked: nat)
    requires CountsFit(st, ready, started, blocked) && TransitionAllowed(Some(st), t)
    ensures CountsFit(StateAfter(st, t), ready + One(t.TaskReady?), started + One(t.TurnStarted?), blocked + One(t.TaskBlocked?))
    ensures One(StateAfter(st, t).IsTerminal()) == One(st.IsTerminal()) + One(t.IsTaskTerminal())
  {
  }

  lemma CountSnoc(log: Log, t: EventType)
    requires log != []
    ensures Count(log, t) == Count(log[..|log| - 1], t) + One(log[|log| - 1].ev.etype == t)
  {
  }

  ghost predicate Fits(log: Log) {
    && CountsFit(Fold(log).state, Count(log, TaskReady), Count(log, TurnStarted), Count(log, TaskBlocked))
    && TerminalCount(log) == One(Fold(log).state.IsTerminal())
  }

  lemma FoldState(log: Log)
    requires log != []
    ensures Fold(log).state == StateAfter(Fold(log[..|log| - 1]).state, log[|log| - 1].ev.etype)
  {
  }

  lemma FitsFirst(log: Log)
    requires |log| == 1 && log[0].ev.etype.TaskCreated?
    ensures Fits(log)
  {
    FoldState(log);
    CountsSnoc(log);
    assert log[..0] == [];
    hide Fold;
  }

  lemma CountsSnoc(log: Log)
    requires log != []
    ensures var l, t := log[..|log| - 1], log[|log| - 1].ev.etype;
            && Count(log, TaskReady) == Count(l, TaskReady) + One(t.TaskReady?)
            && Count(log, TurnStarted) == Count(l, TurnStarted) + One(t.TurnStarted?)
            && Count(log, TaskBlocked) == Count(l, TaskBlocked) + One(t.TaskBlocked?)
            && TerminalCount(log) == TerminalCount(l) + One(t.IsTaskTerminal())
  {
    CountSnoc(log, TaskReady);
    CountSnoc(log, TurnStarted);
    CountSnoc(log, TaskBlocked);
    CountSnoc(log, TaskSucceeded);
    CountSnoc(log, TaskFailed);
    CountSnoc(log, TaskCanceled);
    hide Count;
  }

  lemma FitsSnoc(log: Log)
    requires log != [] && Fits(log[..|log| - 1])
    requires TransitionAllowed(Some(Fold(log[..|log| - 1]).state), log[|log| - 1].ev.etype)
    ensures Fits(log)
  {
    var l, t := log[..|log| - 1], log[|log| - 1].ev.etype;
    FoldState(log);
    CountsSnoc(log);
    GuardedStep(Fold(l).state, t, Count(l, TaskReady), Count(l, TurnStarted), Count(l, TaskBlocked));
    hide Count, TerminalCount, Fold, TransitionAllowed, CountsFit, StateAfter, One;
  }

  lemma {:induction false} GuardedFits(log: Log)
    requires Guarded(log)
    ensures Fits(log)
  {
    if log != [] {
      GuardedFits(log[..|log| - 1]);
      if |log| == 1 {
        FitsFirst(log);
      } else {
        FitsSnoc(log);
      }
    }
  }

  lemma {:induction false} GuardedPrefix(log: Log, n: nat)
    requires Guarded(log) && n <= |log|
    ensures Guarded(log[..n])
  {
    if n == |log| {
      assert log[..n] == log;
    } else {
      GuardedPrefix(log[..|log| - 1], n);
      assert log[..|log| - 1][..n] == log[..n];
    }
  }

  /**
   In a guarded log every prefix satisfies #blocked <= #turn_started <= #ready <= #blocked + 1, and
   no prefix holds more than one task-terminal event.
   */
  lemma GuardedCounts(log: Log, n: nat)
    requires Guarded(log) && n <= |log|
    ensures Count(log[..n], TaskBlocked) <= Count(log[..n], TurnStarted) <= Count(log[..n], TaskReady)
            <= Count(log[..n], TaskBlocked) + 1
    ensures TerminalCount(log[..n]) <= 1
  {
    GuardedPrefix(log, n);
    GuardedFits(log[..n]);
  }

  lemma TerminalIsFinal(st: TaskState, t: EventType)
    requires st.IsTerminal() && TransitionAllowed(Some(st), t)
    ensures Target(t).None? && StateAfter(st, t) == st
  {
  }

  lemma {:induction false} TerminalStays(log: Log, i: nat)
    requires Guarded(log) && i < |log| && log[i].ev.etype.IsTaskTerminal()
    ensures Fold(log).state.IsTerminal()
  {
    var l, t := log[..|log| - 1], log[|log| - 1].ev.etype;
    FoldState(log);
    hide Fold, TransitionAllowed;
    if i < |l| {
      TerminalStays(l, i);
      TerminalIsFinal(Fold(l).state, t);
    }
  }

  /** Nothing that moves the task state follows a task-terminal event: no task event and no turn start. */
  lemma NothingAfterTerminal(log: Log, i: nat, j: nat)
    requires Guarded(log) && i < j < |log| && log[i].ev.etype.IsTaskTerminal()
    ensures Target(log[j].ev.etype).None?
  {
    GuardedPrefix(log, j + 1);
    var upto := log[..j + 1];
    assert upto[..|upto| - 1] == log[..j];
    TerminalStays(log[..j], i);
    TerminalIsFinal(Fold(log[..j]).state, log[j].ev.etype);
  }

  /** What may come next in a guarded log. */
  predicate GuardAdmits(log: Log, ev: Event) {
    if log == [] then ev.etype.TaskCreated? else TransitionAllowed(Some(Fold(log).state), ev.etype)
  }

  lemma GuardedAppend(log: Log, ev: Event)
    ensures Guarded(Append(log, ev)) <==> Guarded(log) && GuardAdmits(log, ev)
  {
    var log' := Append(log, ev);
    assert log'[..|log'| - 1] == log;
    hide Fold, TransitionAllowed;
  }

  /**
   An accepted write keeps the log guarded if and only if it starts an empty log with `task_created`,
   or goes on with a log that is cached, or is not a second `task_created`.
   */
  lemma WriteKeepsGuardedIff(log: Log, cached: bool, ev: Event)
    requires Guarded(log)
    requires TransitionAllowed(if cached then Some(Fold(log).state) else None, ev.etype)
    ensures Guarded(Append(log, ev)) <==>
            if log == [] then ev.etype.TaskCreated? else cached || !ev.etype.TaskCreated?
  {
    GuardedAppend(log, ev);
    hide Fold;
  }

  /**
   Which first events the check lets through: without a cached projection `task_created`, over the empty
   projection that a read of an unknown task leaves behind `task_ready` and `task_canceled`, and in both
   cases every event that does not move the task state.
   */
  lemma FirstEventAdmittedIff(t: EventType)
    ensures TransitionAllowed(None, t) <==> Target(t).None? || t.TaskCreated?
    ensures TransitionAllowed(Some(Fold([]).state), t) <==> Target(t).None? || t.TaskReady? || t.TaskCanceled?
  {
  }

  // ---------------------------------------------------------------- what the write checks ask for

  const TURN_EVENTS := {TurnPending, TurnStarted, TurnCompleted, TurnFailed, TurnCanceled, TurnBlocked}

  const LLM_ENDS := {LlmCompleted, LlmFailed}

  const TOOL_ENDS := {ToolCompleted, ToolFailed}

  const STEP_EVENTS := {LlmInvoked, ToolInvoked} + LLM_ENDS + TOOL_ENDS

  /** Id by id: a step id stands on exactly the step events, a turn id on every turn event and else only on step events. */
  lemma ScopeAsks(ev: Event)
    ensures ValidScope(ev) <==>
            && (ev.stepId.Some? <==> ev.etype in STEP_EVENTS)
            && (ev.etype in TURN_EVENTS ==> ev.turnId.Some?)
            && (ev.turnId.Some? ==> ev.etype in TURN_EVENTS + STEP_EVENTS)
  {
  }

  /** Field by field: which event types must carry it. */
  predicate Carries(ev: Event, field: string, types: set<EventType>) {
    ev.etype in types ==> field in ev.payload.fields
  }

  lemma PayloadAsks(ev: Event)
    ensures ValidPayload(ev) <==>
            && Carries(ev, "model", {LlmInvoked, LlmCompleted})
            && Carries(ev, "messages", {LlmInvoked})
            && Carries(ev, "local_seq", {LlmInvoked, LlmCompleted, ToolInvoked})
            && Carries(ev, "tool_name", {ToolInvoked})
            && Carries(ev, "tool_call_id", {ToolInvoked})
            && Carries(ev, "idempotency_key", {ToolInvoked})
            && Carries(ev, "summarized_up_to_seq", {SummaryMarker})
            && Carries(ev, "summarized_up_to_turn_id", {SummaryMarker})
            && Carries(ev, "summary", {SummaryMarker})
            && (ev.etype == LlmCompleted && ev.payload.usage.Some? ==>
                  ev.payload.usage.value.prompt.Some? && ev.payload.usage.value.completion.Some?)
  {
  }

  /** A model call ends as a model call and a tool call as a tool call. */
  lemma EndsMatchStarts(start: EventType, end: EventType)
    ensures MatchesStartType(start, end) <==>
            (start == LlmInvoked && end in LLM_ENDS) || (start == ToolInvoked && end in TOOL_ENDS)
    ensures start.IsStepStart() && end.IsStepTerminal() && !MatchesStartType(start, end) ==>
              (start == LlmInvoked <==> end in TOOL_ENDS)
  {
  }

  // ---------------------------------------------------------------- what may come next

  /** The task events that a task in this state takes. */
  function TaskEventsTaken(st: TaskState): set<EventType> {
    match st
    case Created => {TaskReady, TaskCanceled}
    case Ready => {TaskClaimed, TaskCanceled}
    case Claimed => {TaskCanceled}
    case Executing => {TaskBlocked, TaskSucceeded, TaskFailed, TaskCanceled}
    case Blocked => {TaskReady, TaskCanceled}
    case _ => {}
  }

  const ALL_TASK_EVENTS := {TaskCreated, TaskReady, TaskClaimed, TaskBlocked, TaskSucceeded, TaskFailed, TaskCanceled}

  /**
   What the guard lets through, state by state: of the task events exactly the listed ones, a turn start
   on a ready or claimed task, and every other event always.
   */
  lemma GuardTakes(st: TaskState, t: EventType)
    ensures TransitionAllowed(Some(st), t) <==>
            if t in ALL_TASK_EVENTS then t in TaskEventsTaken(st)
            else t == TurnStarted ==> st == Ready || st == Claimed
    ensures t in TaskEventsTaken(st) ==> StateAfter(st, t) == StateNamed(t)
  {
  }

  /** The state that a task event is named after. */
  function StateNamed(t: EventType): TaskState {
    if t == TaskReady then Ready
    else if t == TaskClaimed then Claimed
    else if t == TaskBlocked then Blocked
    else if t == TaskSucceeded then Succeeded
    else if t == TaskFailed then Failed
    else if t == TaskCanceled then Canceled
    else Created
  }

  /** The table of states, against the events: a move is in it if a task event makes it, and so is the start of a claimed task. */
  lemma TableMeaning(from: TaskState, to: TaskState)
    ensures CanTransition(from, to) <==>
            (exists t :: t in TaskEventsTaken(from) && StateNamed(t) == to) || (from == Claimed && to == Executing)
  {
    if from == Created || from == Blocked {
      assert TaskReady in TaskEventsTaken(from) && TaskCanceled in TaskEventsTaken(from);
    } else if from == Ready {
      assert TaskClaimed in TaskEventsTaken(from) && TaskCanceled in TaskEventsTaken(from);
    } else if from == Claimed {
      assert TaskCanceled in TaskEventsTaken(from);
    } else if from == Executing {
      assert TaskBlocked in TaskEventsTaken(from) && TaskSucceeded in TaskEventsTaken(from);
      assert TaskFailed in TaskEventsTaken(from) && TaskCanceled in TaskEventsTaken(from);
    }
  }

  // ---------------------------------------------------------------- liveness

  function Continued(log: Log, evs: seq<Event>): Log {
    if evs == [] then log else Append(Continued(log, evs[..|evs| - 1]), evs[|evs| - 1])
  }

  function Plain(t: EventType): Event { Event(t, None, None, EMPTY_PAYLOAD) }

  function Start(turn: int): Event { Event(TurnStarted, Some(turn), None, EMPTY_PAYLOAD) }

  /** A continuation that passes all checks of the write path and leads to this state. */
  ghost predicate LeadsTo(log: Log, evs: seq<Event>, st: TaskState) {
    && Guarded(Continued(log, evs)) && Continued(log, evs) != []
    && Fold(Continued(log, evs)).state == st
    && forall i :: 0 <= i < |evs| ==> ValidScope(evs[i]) && ValidPayload(evs[i])
  }

  lemma OneMore(log: Log, evs: seq<Event>, from: TaskState, ev: Event)
    requires LeadsTo(log, evs, from) && ValidScope(ev) && ValidPayload(ev)
    requires TransitionAllowed(Some(from), ev.etype)
    ensures LeadsTo(log, evs + [ev], StateAfter(from, ev.etype))
  {
    var before := Continued(log, evs);
    assert (evs + [ev])[..|evs|] == evs;
    GuardedAppend(before, ev);
    FoldState(Append(before, ev));
    assert Append(before, ev)[..|before|] == before;
    hide Fold, TransitionAllowed, Guarded, ValidScope, ValidPayload, Continued, StateAfter;
  }

  /** One task event further. */
  lemma Move(log: Log, evs: seq<Event>, from: TaskState, t: EventType, to: TaskState) returns (more: seq<Event>)
    requires LeadsTo(log, evs, from) && t in TaskEventsTaken(from) && to == StateNamed(t)
    ensures more == evs + [Plain(t)] && LeadsTo(log, more, to)
  {
    GuardTakes(from, t);
    more := evs + [Plain(t)];
    assert ValidScope(Plain(t)) && ValidPayload(Plain(t));
    assert TransitionAllowed(Some(from), t) && StateAfter(from, t) == to;
    hide LeadsTo, TransitionAllowed, ValidScope, ValidPayload, StateAfter;
    OneMore(log, evs, from, Plain(t));
  }

  /** The shortest way of a live task to execution. */
  lemma CanExecute(log: Log, turn: int) returns (evs: seq<Event>)
    requires Guarded(log) && log != [] && !Fold(log).state.IsTerminal()
    ensures LeadsTo(log, evs, Executing)
  {
    evs := [];
    var st := Fold(log).state;
    assert LeadsTo(log, evs, st);
    hide LeadsTo, Fold;
    if st.Created? || st.Blocked? {
      evs := Move(log, evs, st, TaskReady, Ready);
      st := Ready;
    }
    if !st.Executing? {
      OneMore(log, evs, st, Start(turn));
      evs := evs + [Start(turn)];
    }
  }

  /** An executing task can end well or badly, be cancelled, or block, with one event. */
  lemma ExecutingTakes(log: Log, evs: seq<Event>)
    requires LeadsTo(log, evs, Executing)
    ensures LeadsTo(log, evs + [Plain(TaskSucceeded)], Succeeded) && LeadsTo(log, evs + [Plain(TaskFailed)], Failed)
    ensures LeadsTo(log, evs + [Plain(TaskCanceled)], Canceled) && LeadsTo(log, evs + [Plain(TaskBlocked)], Blocked)
  {
    hide LeadsTo;
    var _ := Move(log, evs, Executing, TaskSucceeded, Succeeded);
    var _ := Move(log, evs, Executing, TaskFailed, Failed);
    var _ := Move(log, evs, Executing, TaskCanceled, Canceled);
    var _ := Move(log, evs, Executing, TaskBlocked, Blocked);
  }

  /** A blocked task can become ready again, and then be claimed. */
  lemma BlockedResumes(log: Log, evs: seq<Event>)
    requires LeadsTo(log, evs, Blocked)
    ensures LeadsTo(log, evs + [Plain(TaskReady)], Ready)
    ensures LeadsTo(log, evs + [Plain(TaskReady)] + [Plain(TaskClaimed)], Claimed)
  {
    hide LeadsTo;
    var ready := Move(log, evs, Blocked, TaskReady, Ready);
    var _ := Move(log, ready, Ready, TaskClaimed, Claimed);
  }

  /**
   No live task is stuck: from every guarded log of a task that has not ended, and for every state but
   the first, some continuation that passes all checks leads to that state.
   */
  lemma LiveReachesAll(log: Log, turn: int, goal: TaskState) returns (evs: seq<Event>)
    requires Guarded(log) && log != [] && !Fold(log).state.IsTerminal() && goal != Created
    ensures LeadsTo(log, evs, goal)
  {
    evs := CanExecute(log, turn);
    hide LeadsTo;
    ExecutingTakes(log, evs);
    BlockedResumes(log, evs + [Plain(TaskBlocked)]);
    evs := match goal
      case Succeeded => evs + [Plain(TaskSucceeded)]
      case Failed => evs + [Plain(TaskFailed)]
      case Canceled => evs + [Plain(TaskCanceled)]
      case Blocked => evs + [Plain(TaskBlocked)]
      case Ready => evs + [Plain(TaskBlocked)] + [Plain(TaskReady)]
      case Claimed => evs + [Plain(TaskBlocked)] + [Plain(TaskReady)] + [Plain(TaskClaimed)]
      case _ => evs;
  }

  // ---------------------------------------------------------------- turn ids

  /** The id that `start_turn` gives: one more than the greatest seen. */
  function NextTurnId(log: Log): int { Fold(log).maxTurnId + 1 }

  /** A new turn's id is positive and exceeds every turn id of the log. */
  lemma NextTurnIdIsFresh(log: Log)
    ensures NextTurnId(log) >= 1
    ensures forall i, t :: 0 <= i < |log| && log[i].ev.turnId == Some(t) ==> t < NextTurnId(log)
  {
    MaxTurnMeaning(log);
    hide Fold;
    forall i, t | 0 <= i < |log| && log[i].ev.turnId == Some(t) ensures t < NextTurnId(log) {
      assert HasTurn(log, t);
    }
  }
}
