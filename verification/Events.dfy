/** Event vocabulary, scopes, task states and the checks applied to every write. */
module Events {
  import opened Wrappers

  datatype EventType =
    | SessionStarted | SessionEnded | SummaryMarker
    | TaskCreated | TaskReady | TaskClaimed | TaskBlocked | TaskSucceeded | TaskFailed | TaskCanceled
    | TurnPending | TurnStarted | TurnCompleted | TurnFailed | TurnCanceled | TurnBlocked
    | LlmInvoked | LlmCompleted | LlmFailed
    | ToolInvoked | ToolCompleted | ToolFailed
  {
    predicate IsTaskLevel() {
      TaskCreated? || TaskReady? || TaskClaimed? || TaskBlocked? || TaskSucceeded? || TaskFailed? || TaskCanceled?
    }

    predicate IsSessionLevel() {
      SessionStarted? || SessionEnded? || SummaryMarker?
    }

    predicate IsTurnLevel() {
      TurnPending? || TurnStarted? || IsTurnTerminal()
    }

    predicate IsTurnTerminal() {
      TurnCompleted? || TurnFailed? || TurnCanceled? || TurnBlocked?
    }

    predicate IsTaskTerminal() {
      TaskSucceeded? || TaskFailed? || TaskCanceled?
    }

    predicate IsStepStart() {
      LlmInvoked? || ToolInvoked?
    }

    predicate IsStepTerminal() {
      LlmCompleted? || LlmFailed? || ToolCompleted? || ToolFailed?
    }

    function Scope(): EventScope {
      if IsTaskLevel() then Task
      else if IsSessionLevel() then Session
      else if IsTurnLevel() then Turn
      else Step
    }
  }

  datatype EventScope = Task | Session | Turn | Step

  predicate MatchesStartType(start: EventType, terminal: EventType) {
    || (start.LlmInvoked? && (terminal.LlmCompleted? || terminal.LlmFailed?))
    || (start.ToolInvoked? && (terminal.ToolCompleted? || terminal.ToolFailed?))
  }

  datatype Usage = Usage(prompt: Option<int>, completion: Option<int>, total: Option<int>)

  /** The payload fields that some query reads; `fields` names every non-null field present. */
  datatype Payload = Payload(
    fields: set<string>,
    taskType: Option<string>, priority: Option<int>,
    redoGroup: Option<string>, redoCount: Option<int>, userInput: Option<string>,
    toolName: Option<string>, stepType: Option<string>,
    model: Option<string>, usage: Option<Usage>,
    summarizedSeq: Option<int>, summarizedTurn: Option<int>)

  const EMPTY_PAYLOAD := Payload({}, None, None, None, None, None, None, None, None, None, None, None)

  /** An event before the broker has numbered it. */
  datatype Event = Event(etype: EventType, turnId: Option<int>, stepId: Option<string>, payload: Payload)

  /** A numbered event of one task's log. */
  datatype Record = Record(seqNo: int, ev: Event)

  type Log = seq<Record>

  /** The broker numbers a task's events upwards from one. */
  predicate InOrder(log: Log) {
    && (forall i :: 0 <= i < |log| ==> log[i].seqNo >= 1)
    && (forall i, j :: 0 <= i < j < |log| ==> log[i].seqNo < log[j].seqNo)
  }

  /** The number the broker gives next. */
  function NextSeq(log: Log): int {
    if log == [] then 1 else log[|log| - 1].seqNo + 1
  }

  function Append(log: Log, ev: Event): Log {
    log + [Record(NextSeq(log), ev)]
  }

  lemma AppendInOrder(log: Log, ev: Event)
    requires InOrder(log)
    ensures InOrder(Append(log, ev))
  {
  }

  /** The records of one turn, in log order. */
  function OfTurn(s: Log, turn: int): Log {
    if s == [] then []
    else
      var rest := OfTurn(s[..|s| - 1], turn);
      var r := s[|s| - 1];
      if r.ev.turnId == Some(turn) then rest + [r] else rest
  }

  lemma {:induction false} OfTurnAll(log: Log, t: int, i: nat)
    requires i < |log| && log[i].ev.turnId == Some(t)
    ensures log[i] in OfTurn(log, t)
  {
    if i < |log| - 1 {
      OfTurnAll(log[..|log| - 1], t, i);
    }
  }

  lemma {:induction false} OfTurnAppend(a: Log, b: Log, turn: int)
    ensures OfTurn(a + b, turn) == OfTurn(a, turn) + OfTurn(b, turn)
  {
    if b == [] {
      assert a + b == a;
    } else {
      assert (a + b)[..|a + b| - 1] == a + b[..|b| - 1];
      OfTurnAppend(a, b[..|b| - 1], turn);
    }
  }

  // ---------------------------------------------------------------- write checks

  predicate ValidScope(ev: Event) {
    match ev.etype.Scope()
    case Task => ev.turnId.None? && ev.stepId.None?
    case Session => ev.turnId.None? && ev.stepId.None?
    case Turn => ev.turnId.Some? && ev.stepId.None?
    case Step => ev.stepId.Some?
  }

  function RequiredFields(t: EventType): set<string> {
    match t
    case LlmInvoked => {"model", "messages", "local_seq"}
    case LlmCompleted => {"model", "local_seq"}
    case ToolInvoked => {"tool_name", "tool_call_id", "idempotency_key", "local_seq"}
    case SummaryMarker => {"summarized_up_to_seq", "summarized_up_to_turn_id", "summary"}
    case _ => {}
  }

  predicate ValidPayload(ev: Event) {
    && RequiredFields(ev.etype) <= ev.payload.fields
    && (ev.etype.LlmCompleted? && ev.payload.usage.Some? ==>
          ev.payload.usage.value.prompt.Some? && ev.payload.usage.value.completion.Some?)
  }

  // ---------------------------------------------------------------- task states

  datatype TaskState = Created | Ready | Claimed | Executing | Blocked | Succeeded | Failed | Canceled
  {
    predicate IsTerminal() {
      Succeeded? || Failed? || Canceled?
    }
  }

  predicate CanTransition(from: TaskState, to: TaskState) {
    && !from.IsTerminal()
    && (|| (from.Created? && to.Ready?)
        || (from.Ready? && to.Claimed?)
        || (from.Ready? && to.Canceled?)
        || (from.Claimed? && to.Executing?)
        || (from.Claimed? && to.Canceled?)
        || (from.Executing? && to.Blocked?)
        || (from.Executing? && to.Succeeded?)
        || (from.Executing? && to.Failed?)
        || (from.Executing? && to.Canceled?)
        || (from.Blocked? && to.Ready?)
        || (from.Blocked? && to.Canceled?)
        || (from.Created? && to.Canceled?))
  }

  /** The state a task-state event asks for; `turn_started` counts as one. */
  function Target(t: EventType): Option<TaskState> {
    match t
    case TaskCreated => Some(Created)
    case TaskReady => Some(Ready)
    case TaskClaimed => Some(Claimed)
    case TaskBlocked => Some(Blocked)
    case TaskSucceeded => Some(Succeeded)
    case TaskFailed => Some(Failed)
    case TaskCanceled => Some(Canceled)
    case TurnStarted => Some(Executing)
    case _ => None
  }

  /** The transition guard of the write path; `None` is a task that is not in the cache. */
  predicate TransitionAllowed(current: Option<TaskState>, t: EventType) {
    match Target(t)
    case None => true
    case Some(target) =>
      match current
      case None => t.TaskCreated?
      case Some(from) => if t.TurnStarted? then from.Ready? || from.Claimed? else CanTransition(from, target)
  }
}
