/**
 What each part of a projection means in terms of the whole log. The
 definitions look at the log only; the lemmas tie the incrementally kept
 fields to them, for every log.
 */
module ProjectionFacts {
  import opened Wrappers
  import opened Events
  import opened Projection

  function SeqNos(log: Log): seq<int> {
    seq(|log|, i requires 0 <= i < |log| => log[i].seqNo)
  }

  function Evs(log: Log): seq<Event> {
    seq(|log|, i requires 0 <= i < |log| => log[i].ev)
  }

  lemma Unsnoc(log: Log)
    requires log != []
    ensures log == log[..|log| - 1] + [log[|log| - 1]]
    ensures InOrder(log) ==> InOrder(log[..|log| - 1])
  {
  }

  // ---------------------------------------------------------------- indexes

  lemma LastIsNewest(log: Log)
    requires InOrder(log) && log != []
    ensures forall i :: 0 <= i < |log| - 1 ==> log[i].seqNo < log[|log| - 1].seqNo
  {
  }

  predicate HasSeq(log: Log, n: int) {
    exists i :: 0 <= i < |log| && log[i].seqNo == n
  }

  lemma HasSeqSnoc(log: Log, n: int)
    requires log != []
    ensures HasSeq(log, n) <==> HasSeq(log[..|log| - 1], n) || log[|log| - 1].seqNo == n
  {
    var l := log[..|log| - 1];
    if i :| 0 <= i < |l| && l[i].seqNo == n {
      assert log[i].seqNo == n;
    }
    if i :| 0 <= i < |log| && log[i].seqNo == n {
      assert i < |l| ==> l[i].seqNo == n;
    }
  }

  /** The sequence index holds exactly the log's records. */
  lemma {:induction false} BySeqMeaning(log: Log)
    requires InOrder(log)
    ensures forall i :: 0 <= i < |log| ==> log[i].seqNo in Fold(log).bySeq && Fold(log).bySeq[log[i].seqNo] == log[i].ev
    ensures forall n :: n in Fold(log).bySeq <==> HasSeq(log, n)
  {
    if log != [] {
      var l, r := log[..|log| - 1], log[|log| - 1];
      Unsnoc(log);
      BySeqMeaning(l);
      LastIsNewest(log);
      assert Fold(log).bySeq == Fold(l).bySeq[r.seqNo := r.ev] by { FoldSnoc(l, r); }
      hide Fold, InOrder, HasSeq;
      forall i | 0 <= i < |log| ensures log[i].seqNo in Fold(log).bySeq && Fold(log).bySeq[log[i].seqNo] == log[i].ev {
        if i < |l| {
          assert l[i] == log[i];
        }
      }
      forall n ensures n in Fold(log).bySeq <==> HasSeq(log, n) {
        HasSeqSnoc(log, n);
      }
    }
  }

  /** The turn index lists the turn's sequence numbers, ascending. */
  lemma {:induction false} ByTurnMeaning(log: Log, t: int)
    ensures TurnSeqsOf(Fold(log).byTurn, t) == SeqNos(OfTurn(log, t))
  {
    if log != [] {
      var l, r := log[..|log| - 1], log[|log| - 1];
      ByTurnMeaning(l, t);
      var o := OfTurn(l, t);
      if r.ev.turnId == Some(t) {
        assert SeqNos(o + [r]) == SeqNos(o) + [r.seqNo];
      }
    }
  }

  lemma {:induction false} OfTurnFrom(log: Log, t: int, r: Record)
    requires r in OfTurn(log, t)
    ensures r in log && r.ev.turnId == Some(t)
  {
    if log != [] {
      var l := log[..|log| - 1];
      if r in OfTurn(l, t) {
        OfTurnFrom(l, t, r);
      }
      assert log == l + [log[|log| - 1]];
    }
  }

  lemma {:induction false} OfTurnAscends(log: Log, t: int)
    requires InOrder(log)
    ensures InOrder(OfTurn(log, t))
  {
    if log != [] {
      var l, r := log[..|log| - 1], log[|log| - 1];
      Unsnoc(log);
      OfTurnAscends(l, t);
      var o := OfTurn(l, t);
      forall j | 0 <= j < |o| ensures 1 <= o[j].seqNo < r.seqNo {
        OfTurnFrom(l, t, o[j]);
        var i :| 0 <= i < |l| && l[i] == o[j];
        assert log[i] == o[j];
      }
    }
  }

  lemma OfTurnIsSubsequence(log: Log, t: int)
    requires InOrder(log)
    ensures InOrder(OfTurn(log, t))
    ensures forall r | r in OfTurn(log, t) :: r in log && r.ev.turnId == Some(t)
    ensures forall i :: 0 <= i < |log| && log[i].ev.turnId == Some(t) ==> log[i] in OfTurn(log, t)
  {
    hide OfTurn, InOrder;
    OfTurnAscends(log, t);
    forall r | r in OfTurn(log, t) ensures r in log && r.ev.turnId == Some(t) {
      OfTurnFrom(log, t, r);
    }
    forall i | 0 <= i < |log| && log[i].ev.turnId == Some(t) ensures log[i] in OfTurn(log, t) {
      OfTurnAll(log, t, i);
    }
  }

  lemma {:induction false} EventsAtMeaning(bySeq: map<int, Event>, rs: Log)
    requires forall r | r in rs :: r.seqNo in bySeq && bySeq[r.seqNo] == r.ev
    ensures EventsAt(bySeq, SeqNos(rs)) == Evs(rs)
  {
    if rs != [] {
      EventsAtMeaning(bySeq, rs[1..]);
      assert SeqNos(rs)[1..] == SeqNos(rs[1..]);
      assert rs[0] in rs;
      assert Evs(rs) == [rs[0].ev] + Evs(rs[1..]);
    }
  }

  /** Reading a turn through the two indexes gives the turn's events, in order. */
  lemma TurnEventsMeaning(log: Log, t: int)
    requires InOrder(log)
    ensures TurnEvents(Fold(log), t) == Evs(OfTurn(log, t))
  {
    ByTurnMeaning(log, t);
    BySeqMeaning(log);
    OfTurnIsSubsequence(log, t);
    hide Fold, OfTurn;
    forall r | r in OfTurn(log, t) ensures r.seqNo in Fold(log).bySeq && Fold(log).bySeq[r.seqNo] == r.ev {
      var i :| 0 <= i < |log| && log[i] == r;
    }
    EventsAtMeaning(Fold(log).bySeq, OfTurn(log, t));
  }

  /** The row of an incomplete turn, read off the turn's own records. */
  function RowOf(records: Log, turn: int): Option<IncompleteTurn> {
    if records == [] then None
    else
      var pl := records[0].ev.payload;
      Some(IncompleteTurn(turn, GetOr(pl.redoGroup, "?"), AsI32(GetOr(pl.redoCount, 0))))
  }

  lemma RowMeaning(log: Log, turn: int)
    requires InOrder(log)
    ensures IncompleteOf(Fold(log), turn) == RowOf(OfTurn(log, turn), turn)
  {
    var o := OfTurn(log, turn);
    ByTurnMeaning(log, turn);
    OfTurnIsSubsequence(log, turn);
    BySeqMeaning(log);
    hide Fold, OfTurn, InOrder, AsI32;
    if o != [] {
      assert o[0] in o;
      var i :| 0 <= i < |log| && log[i] == o[0];
      assert SeqNos(o)[0] == o[0].seqNo;
    }
  }

  predicate HasTurn(log: Log, t: int) {
    exists i :: 0 <= i < |log| && log[i].ev.turnId == Some(t)
  }

  lemma HasTurnSnoc(log: Log, t: int)
    requires log != []
    ensures HasTurn(log, t) <==> HasTurn(log[..|log| - 1], t) || log[|log| - 1].ev.turnId == Some(t)
  {
    var l := log[..|log| - 1];
    if i :| 0 <= i < |l| && l[i].ev.turnId == Some(t) {
      assert log[i].ev.turnId == Some(t);
    }
    if i :| 0 <= i < |log| && log[i].ev.turnId == Some(t) {
      assert i < |l| ==> l[i].ev.turnId == Some(t);
    }
  }

  /** The greatest turn id is at least zero and every turn of the log, and is attained unless it is zero. */
  lemma {:induction false} MaxTurnMeaning(log: Log)
    ensures Fold(log).maxTurnId >= 0
    ensures forall t :: HasTurn(log, t) ==> t <= Fold(log).maxTurnId
    ensures Fold(log).maxTurnId == 0 || HasTurn(log, Fold(log).maxTurnId)
  {
    if log != [] {
      var l, r := log[..|log| - 1], log[|log| - 1];
      MaxTurnMeaning(l);
      assert Fold(log).maxTurnId == if r.ev.turnId.Some? then Max(Fold(l).maxTurnId, r.ev.turnId.value) else Fold(l).maxTurnId;
      hide HasTurn, Fold;
      forall t ensures HasTurn(log, t) ==> t <= Fold(log).maxTurnId {
        HasTurnSnoc(log, t);
      }
      HasTurnSnoc(log, Fold(log).maxTurnId);
    }
  }

  lemma {:induction false} MaxSeqMeaning(log: Log)
    requires InOrder(log)
    ensures Fold(log).maxSeq == if log == [] then 0 else log[|log| - 1].seqNo
  {
    if log != [] {
      Unsnoc(log);
      MaxSeqMeaning(log[..|log| - 1]);
    }
  }

  // ---------------------------------------------------------------- last events

  /** The kinds of records whose last occurrence matters. */
  datatype Kind =
    | TurnMoves(turn: int) | StepMoves(step: string) | StepEnds(step: string)
    | TaskEvents | Creations | Summaries | TurnSummaries

  predicate Is(r: Record, k: Kind) {
    match k
    case TurnMoves(t) => r.ev.turnId == Some(t) && (r.ev.etype.TurnStarted? || r.ev.etype.IsTurnTerminal())
    case StepMoves(sid) => r.ev.stepId == Some(sid) && (r.ev.etype.IsStepStart() || r.ev.etype.IsStepTerminal())
    case StepEnds(sid) => r.ev.stepId == Some(sid) && r.ev.etype.IsStepTerminal()
    case TaskEvents => r.ev.etype.IsTaskLevel()
    case Creations => r.ev.etype.TaskCreated?
    case Summaries => r.ev.etype.SummaryMarker?
    case TurnSummaries => r.ev.etype.SummaryMarker? && r.ev.payload.summarizedTurn.Some?
  }

  /** The position of the last record of a kind. */
  function Last(log: Log, k: Kind): (r: Option<nat>)
    ensures r.Some? ==> r.value < |log| && Is(log[r.value], k) && forall j :: r.value < j < |log| ==> !Is(log[j], k)
    ensures r.None? ==> forall j :: 0 <= j < |log| ==> !Is(log[j], k)
  {
    if log == [] then None
    else if Is(log[|log| - 1], k) then Some(|log| - 1)
    else Last(log[..|log| - 1], k)
  }

  predicate TurnOpen(log: Log, t: int) {
    var last := Last(log, TurnMoves(t));
    last.Some? && log[last.value].ev.etype.TurnStarted?
  }

  predicate StepOpen(log: Log, sid: string) {
    var last := Last(log, StepMoves(sid));
    last.Some? && log[last.value].ev.etype.IsStepStart()
  }

  /** A turn is active exactly when the last thing that happened to it is that it started. */
  lemma {:induction false} ActiveTurnsMeaning(log: Log, t: int)
    ensures t in Fold(log).activeTurns <==> TurnOpen(log, t)
  {
    if log != [] {
      var l, r := log[..|log| - 1], log[|log| - 1];
      ActiveTurnsMeaning(l, t);
    }
  }

  /** A step is active exactly when its last start or end is a start, and then it carries that record. */
  lemma {:induction false} ActiveStepsMeaning(log: Log, sid: string)
    ensures sid in Fold(log).activeSteps <==> StepOpen(log, sid)
    ensures StepOpen(log, sid) ==> Fold(log).activeSteps[sid] == log[Last(log, StepMoves(sid)).value]
  {
    if log != [] {
      var l, r := log[..|log| - 1], log[|log| - 1];
      ActiveStepsMeaning(l, sid);
    }
  }

  /** An end of a step that was open just before it. */
  predicate Closes(log: Log, e: nat, sid: string) {
    e < |log| && Is(log[e], StepEnds(sid)) && StepOpen(log[..e], sid)
  }

  /** The position of the last such end. */
  function LastClose(log: Log, sid: string): (r: Option<nat>)
    ensures r.Some? ==> Closes(log, r.value, sid) && forall j: nat :: r.value < j ==> !Closes(log, j, sid)
    ensures r.None? ==> forall j: nat :: !Closes(log, j, sid)
  {
    if log == [] then None
    else
      var l := log[..|log| - 1];
      assert forall j: nat | j < |l| :: l[j] == log[j] && l[..j] == log[..j];
      assert forall j: nat | j < |l| :: Closes(l, j, sid) <==> Closes(log, j, sid);
      if Closes(log, |l|, sid) then Some(|l|) else LastClose(l, sid)
  }

  /** What the projection keeps of a completed step: its start, and the kind and number of its end. */
  function CompletedAt(log: Log, e: nat, sid: string): Completed
    requires Closes(log, e, sid)
  {
    Completed(log[Last(log[..e], StepMoves(sid)).value], log[e].ev.etype, log[e].seqNo)
  }

  /** A step is completed exactly when it was ended while open, and then by its last such end. */
  lemma {:induction false} CompletedStepsMeaning(log: Log, sid: string)
    ensures match LastClose(log, sid)
            case None => sid !in Fold(log).completedSteps
            case Some(e) => sid in Fold(log).completedSteps && Fold(log).completedSteps[sid] == CompletedAt(log, e, sid)
  {
    if log != [] {
      var l, r := log[..|log| - 1], log[|log| - 1];
      CompletedStepsMeaning(l, sid);
      ActiveStepsMeaning(l, sid);
      assert Fold(log).completedSteps == CompletedAfter(Fold(l).completedSteps, Fold(l).activeSteps, r);
      hide Fold, StepOpen;
      var before := LastClose(l, sid);
      if before.Some? {
        assert l[..before.value] == log[..before.value];
      }
      assert log[..|l|] == l;
    }
  }

  lemma {:induction false} SummaryMeaning(log: Log)
    ensures match Last(log, Summaries)
            case None => Fold(log).latestSummary == None && Fold(log).summarizedSeq == 0
            case Some(i) =>
              && Fold(log).latestSummary == Some(log[i].ev.payload)
              && Fold(log).summarizedSeq == GetOr(log[i].ev.payload.summarizedSeq, log[i].seqNo)
  {
    if log != [] {
      SummaryMeaning(log[..|log| - 1]);
    }
  }

  /** The summarised turn is that of the last marker that names one. */
  lemma {:induction false} SummarizedTurnMeaning(log: Log)
    ensures Fold(log).summarizedTurn == match Last(log, TurnSummaries)
                                        case None => 0
                                        case Some(i) => log[i].ev.payload.summarizedTurn.value
  {
    if log != [] {
      SummarizedTurnMeaning(log[..|log| - 1]);
    }
  }

  /** Type and priority are those of the last `task_created`; a priority outside 32 bits is cut. */
  lemma {:induction false} HeadMeaning(log: Log)
    ensures match Last(log, Creations)
            case None => Fold(log).taskType == "" && Fold(log).priority == 0
            case Some(i) =>
              && Fold(log).taskType == GetOr(log[i].ev.payload.taskType, "?")
              && Fold(log).priority == AsI32(GetOr(log[i].ev.payload.priority, 0))
  {
    if log != [] {
      HeadMeaning(log[..|log| - 1]);
      hide AsI32;
    }
  }

  /** The turn ids of a log's events, in log order, once for each event. */
  function TurnIds(log: Log): seq<int> {
    if log == [] then []
    else (if log[0].ev.turnId.Some? then [log[0].ev.turnId.value] else []) + TurnIds(log[1..])
  }

  lemma {:induction false} TurnIdsSnoc(log: Log, r: Record)
    ensures TurnIds(log + [r]) == TurnIds(log) + if r.ev.turnId.Some? then [r.ev.turnId.value] else []
  {
    if log == [] {
      assert ([] + [r])[1..] == [];
    } else {
      TurnIdsSnoc(log[1..], r);
      assert (log + [r])[1..] == log[1..] + [r];
    }
  }

  lemma {:induction false} RecentTurnsMeaning(log: Log)
    ensures Fold(log).recentTurns == TurnIds(log)
  {
    if log != [] {
      Unsnoc(log);
      RecentTurnsMeaning(log[..|log| - 1]);
      TurnIdsSnoc(log[..|log| - 1], log[|log| - 1]);
      hide TurnIds, InOrder;
    }
  }

  // ---------------------------------------------------------------- tokens

  predicate UsesModel(r: Record, m: string) {
    r.ev.etype.LlmCompleted? && r.ev.payload.usage.Some? && ModelOf(r.ev) == m
  }

  /** The usages reported for a model, in log order. */
  function UsagesOf(log: Log, m: string): seq<Usage> {
    if log == [] then []
    else
      var rest := UsagesOf(log[..|log| - 1], m);
      var r := log[|log| - 1];
      if UsesModel(r, m) then rest + [r.ev.payload.usage.value] else rest
  }

  function Sum(xs: seq<Option<int>>): int {
    if xs == [] then 0 else Sum(xs[..|xs| - 1]) + GetOr(xs[|xs| - 1], 0)
  }

  function Prompts(us: seq<Usage>): seq<Option<int>> {
    seq(|us|, i requires 0 <= i < |us| => us[i].prompt)
  }

  function Completions(us: seq<Usage>): seq<Option<int>> {
    seq(|us|, i requires 0 <= i < |us| => us[i].completion)
  }

  function Totals(us: seq<Usage>): seq<Option<int>> {
    seq(|us|, i requires 0 <= i < |us| => us[i].total)
  }

  function StatsOfUsages(us: seq<Usage>): TokenStats {
    TokenStats(|us|, Sum(Prompts(us)), Sum(Completions(us)), Sum(Totals(us)))
  }

  lemma StatsSnoc(us: seq<Usage>, u: Usage)
    ensures StatsOfUsages(us + [u]) == AddUsage(StatsOfUsages(us), u)
  {
    assert Prompts(us + [u])[..|us|] == Prompts(us);
    assert Completions(us + [u])[..|us|] == Completions(us);
    assert Totals(us + [u])[..|us|] == Totals(us);
  }

  /** Token statistics are the count and the sums of the usages reported per model; other models are absent. */
  lemma {:induction false} TokensMeaning(log: Log, m: string)
    ensures var us := UsagesOf(log, m);
            && (m in Fold(log).tokens <==> us != [])
            && StatsOf(Fold(log).tokens, m) == StatsOfUsages(us)
  {
    if log != [] {
      var l, r := log[..|log| - 1], log[|log| - 1];
      TokensMeaning(l, m);
      if UsesModel(r, m) {
        StatsSnoc(UsagesOf(l, m), r.ev.payload.usage.value);
      }
    }
  }

  // ---------------------------------------------------------------- task state

  predicate StartedAfter(log: Log, i: int) {
    exists j :: 0 <= j < |log| && i < j && log[j].ev.etype.TurnStarted?
  }

  function TaskEventState(t: EventType): TaskState
    requires t.IsTaskLevel()
  {
    match t
    case TaskCreated => Created
    case TaskReady => Ready
    case TaskClaimed => Claimed
    case TaskBlocked => Blocked
    case TaskSucceeded => Succeeded
    case TaskFailed => Failed
    case TaskCanceled => Canceled
  }

  function StateOf(log: Log): TaskState {
    match Last(log, TaskEvents)
    case None => Created
    case Some(i) =>
      var base := TaskEventState(log[i].ev.etype);
      if (base.Ready? || base.Claimed?) && StartedAfter(log, i) then Executing else base
  }

  lemma StartedAfterSnoc(log: Log, i: int)
    requires log != [] && i < |log|
    ensures StartedAfter(log, i) <==>
            (i < |log| - 1 && log[|log| - 1].ev.etype.TurnStarted?) || StartedAfter(log[..|log| - 1], i)
  {
    var l := log[..|log| - 1];
    if StartedAfter(l, i) {
      var j :| 0 <= j < |l| && i < j && l[j].ev.etype.TurnStarted?;
      assert log[j].ev.etype.TurnStarted?;
    }
    if j :| 0 <= j < |log| && i < j && log[j].ev.etype.TurnStarted? {
      if j < |l| {
        assert l[j].ev.etype.TurnStarted?;
      }
    }
  }

  /** The projected state is that of the last task event, raised to Executing by a later turn when Ready or Claimed. */
  lemma {:induction false} StateMeaning(log: Log)
    ensures Fold(log).state == StateOf(log)
  {
    if log != [] {
      var l, r := log[..|log| - 1], log[|log| - 1];
      StateMeaning(l);
      if r.ev.etype.IsTaskLevel() {
        assert !StartedAfter(log, |l|);
      } else if Last(l, TaskEvents).Some? {
        StartedAfterSnoc(log, Last(l, TaskEvents).value);
      }
    }
  }

  // ---------------------------------------------------------------- everything at once

  ghost predicate ReflectsTask(p: Proj, log: Log) {
    && p.state == StateOf(log)
    && (match Last(log, Creations)
        case None => p.taskType == "" && p.priority == 0
        case Some(i) =>
          && p.taskType == GetOr(log[i].ev.payload.taskType, "?")
          && p.priority == AsI32(GetOr(log[i].ev.payload.priority, 0)))
  }

  ghost predicate ReflectsIndexes(p: Proj, log: Log) {
    && p.maxSeq == (if log == [] then 0 else log[|log| - 1].seqNo)
    && (forall i :: 0 <= i < |log| ==> log[i].seqNo in p.bySeq && p.bySeq[log[i].seqNo] == log[i].ev)
    && (forall n :: n in p.bySeq <==> HasSeq(log, n))
    && p.recentTurns == TurnIds(log)
  }

  ghost predicate ReflectsTurns(p: Proj, log: Log) {
    && (forall t :: TurnSeqsOf(p.byTurn, t) == SeqNos(OfTurn(log, t)) && TurnEvents(p, t) == Evs(OfTurn(log, t)))
    && (forall t :: t in p.activeTurns <==> TurnOpen(log, t))
    && (forall t :: HasTurn(log, t) ==> t <= p.maxTurnId)
    && p.maxTurnId >= 0 && (p.maxTurnId == 0 || HasTurn(log, p.maxTurnId))
  }

  ghost predicate ReflectsStep(p: Proj, log: Log, sid: string) {
    && (sid in p.activeSteps <==> StepOpen(log, sid))
    && (StepOpen(log, sid) ==> p.activeSteps[sid] == log[Last(log, StepMoves(sid)).value])
    && (match LastClose(log, sid)
        case None => sid !in p.completedSteps
        case Some(e) => sid in p.completedSteps && p.completedSteps[sid] == CompletedAt(log, e, sid))
  }

  ghost predicate ReflectsSummary(p: Proj, log: Log) {
    && (match Last(log, Summaries)
        case None => p.latestSummary == None && p.summarizedSeq == 0
        case Some(i) =>
          && p.latestSummary == Some(log[i].ev.payload)
          && p.summarizedSeq == GetOr(log[i].ev.payload.summarizedSeq, log[i].seqNo))
    && p.summarizedTurn == (match Last(log, TurnSummaries)
                            case None => 0
                            case Some(i) => log[i].ev.payload.summarizedTurn.value)
  }

  ghost predicate ReflectsTokens(p: Proj, log: Log, m: string) {
    var us := UsagesOf(log, m);
    (m in p.tokens <==> us != []) && StatsOf(p.tokens, m) == StatsOfUsages(us)
  }

  /** Everything a projection promises about its log: each of its fields, in terms of the log alone. */
  ghost predicate Reflects(p: Proj, log: Log) {
    && ReflectsTask(p, log) && ReflectsIndexes(p, log) && ReflectsTurns(p, log) && ReflectsSummary(p, log)
    && (forall sid :: ReflectsStep(p, log, sid))
    && (forall m :: ReflectsTokens(p, log, m))
  }

  lemma FoldReflectsTask(log: Log)
    ensures ReflectsTask(Fold(log), log)
  {
    StateMeaning(log);
    HeadMeaning(log);
    hide Fold, StateOf, AsI32;
  }

  lemma FoldReflectsIndexes(log: Log)
    requires InOrder(log)
    ensures ReflectsIndexes(Fold(log), log)
  {
    MaxSeqMeaning(log);
    BySeqMeaning(log);
    RecentTurnsMeaning(log);
    hide Fold, InOrder, HasSeq, TurnIds;
  }

  lemma FoldReflectsTurns(log: Log)
    requires InOrder(log)
    ensures ReflectsTurns(Fold(log), log)
  {
    MaxTurnMeaning(log);
    hide Fold, OfTurn, TurnOpen, HasTurn, InOrder, TurnEvents, TurnSeqsOf, SeqNos, Evs;
    forall t ensures TurnSeqsOf(Fold(log).byTurn, t) == SeqNos(OfTurn(log, t)) && TurnEvents(Fold(log), t) == Evs(OfTurn(log, t)) {
      ByTurnMeaning(log, t);
      TurnEventsMeaning(log, t);
    }
    forall t ensures t in Fold(log).activeTurns <==> TurnOpen(log, t) {
      ActiveTurnsMeaning(log, t);
    }
  }

  /** Folding a log event by event gives a projection that reflects the whole log. */
  lemma FoldReflects(log: Log)
    requires InOrder(log)
    ensures Reflects(Fold(log), log)
  {
    FoldReflectsTask(log);
    FoldReflectsIndexes(log);
    FoldReflectsTurns(log);
    SummaryMeaning(log);
    SummarizedTurnMeaning(log);
    forall sid ensures ReflectsStep(Fold(log), log, sid) {
      ActiveStepsMeaning(log, sid);
      CompletedStepsMeaning(log, sid);
      hide Fold, StepOpen, Last, LastClose, CompletedAt, InOrder;
    }
    forall m ensures ReflectsTokens(Fold(log), log, m) {
      TokensMeaning(log, m);
      hide Fold, UsagesOf, StatsOfUsages, StatsOf, InOrder;
    }
    hide Fold, InOrder, ReflectsTask, ReflectsIndexes, ReflectsTurns, ReflectsStep, ReflectsTokens;
  }

  // ---------------------------------------------------------------- rows of open steps

  /** The rows of in-flight steps are the last invocations of the open steps, with number, turn, kind and payload as logged. */
  lemma StepRowMeaning(log: Log, row: IncompleteStep)
    ensures ListedStep(Fold(log).activeSteps, row) <==>
            StepOpen(log, row.stepId) &&
            (var r := log[Last(log, StepMoves(row.stepId)).value];
             && row.seqNo == r.seqNo && row.startType == r.ev.etype && row.payload == r.ev.payload
             && row.turnId == (match r.ev.turnId case Some(t) => t case None => 0))
  {
    ActiveStepsMeaning(log, row.stepId);
    hide Fold;
  }

  // ---------------------------------------------------------------- casts

  /** A cast to 32 bits takes off a multiple of the width, so that the rest fits; numbers that fit stay. */
  lemma AsI32Meaning(n: int)
    ensures -0x8000_0000 <= AsI32(n) < 0x8000_0000
    ensures AsI32(n) == n - ((n + 0x8000_0000) / 0x1_0000_0000) * 0x1_0000_0000
    ensures -0x8000_0000 <= n < 0x8000_0000 ==> AsI32(n) == n
  {
  }
}
