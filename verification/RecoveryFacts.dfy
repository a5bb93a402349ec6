/** What a recovery guarantees: an exact split of the incomplete turns, and a fixed point. */
module RecoveryFacts {
  import opened Wrappers
  import opened Events
  import opened Projection
  import opened ProjectionFacts
  import opened Lifecycle
  import opened BrokerStore
  import opened Service
  import opened Recovery

  // ---------------------------------------------------------------- the split

  function ReturnedTurns(queue: seq<RedoContext>): set<int> {
    set c | c in queue :: c.turnId
  }

  /** The context carries the turn's redo group and the next redo count. */
  predicate HandedBack(log: Log, turn: int, c: RedoContext) {
    var row := IncompleteOf(Fold(log), turn);
    && c.turnId == turn && row.Some?
    && c.redoGroup == row.value.redoGroup
    && c.redoCount == AsI32(row.value.redoCount + 1)
  }

  /** The text is what the user said at the turn's first start, or empty if that says nothing. */
  predicate InputOfStart(records: Log, input: string) {
    exists i :: 0 <= i < |records| && records[i].ev.etype == TurnStarted
                && (forall j :: 0 <= j < i ==> records[j].ev.etype != TurnStarted)
                && input == (match records[i].ev.payload.userInput case Some(u) => u case None => "")
  }

  lemma {:induction false} FirstStartedMeaning(evs: seq<Event>)
    ensures match FirstStarted(evs)
            case None => forall i :: 0 <= i < |evs| ==> evs[i].etype != TurnStarted
            case Some(ev) => exists i :: 0 <= i < |evs| && evs[i] == ev && ev.etype == TurnStarted
                                         && forall j :: 0 <= j < i ==> evs[j].etype != TurnStarted
  {
    if evs != [] && !evs[0].etype.TurnStarted? {
      FirstStartedMeaning(evs[1..]);
      if FirstStarted(evs).Some? {
        var i :| 0 <= i < |evs| - 1 && evs[1..][i] == FirstStarted(evs).value
                 && forall j :: 0 <= j < i ==> evs[1..][j].etype != TurnStarted;
        assert evs[i + 1] == FirstStarted(evs).value;
        assert forall j :: 1 <= j < i + 1 ==> evs[j] == evs[1..][j - 1];
      }
    }
  }

  lemma ContextInput(k: string, records: Log, turn: int)
    requires ContextOf(k, records, turn).Some?
    ensures InputOfStart(records, ContextOf(k, records, turn).value.userInput)
  {
    FirstStartedMeaning(Evs(records));
    hide FirstStarted, AsI32;
    var ev := FirstStarted(Evs(records)).value;
    var i :| 0 <= i < |Evs(records)| && Evs(records)[i] == ev && forall j :: 0 <= j < i ==> Evs(records)[j].etype != TurnStarted;
    assert forall j :: 0 <= j < |records| ==> Evs(records)[j] == records[j].ev;
  }

  lemma ReturnedAreUnblocked(k: string, before: Log, after: Log, queue: seq<RedoContext>)
    requires Recovered(k, before, after, queue) && InOrder(before)
    ensures ReturnedTurns(queue) == Fold(before).activeTurns - BlockedAmong(before, Fold(before).activeTurns)
  {
    hide Progress, BlockedTurn, OfTurn, InOrder, ContextOf;
    forall t | t in Fold(before).activeTurns - BlockedAmong(before, Fold(before).activeTurns) ensures t in ReturnedTurns(queue) {
      ActiveHasContext(k, before, t);
      ContextTurn(k, OfTurn(before, t), t);
      var c := ContextOf(k, OfTurn(before, t), t).value;
      assert c in queue;
    }
  }

  lemma ContextTurn(k: string, records: Log, turn: int)
    ensures ContextOf(k, records, turn).Some? ==> ContextOf(k, records, turn).value.turnId == turn
  {
  }

  /** A returned context belongs to an incomplete turn without a blocking step, which keeps its events. */
  lemma ReturnedAreHandedBack(k: string, before: Log, after: Log, queue: seq<RedoContext>, c: RedoContext)
    requires Recovered(k, before, after, queue) && InOrder(before) && c in queue
    ensures HandedBack(before, c.turnId, c) && c.taskId == k
    ensures InputOfStart(OfTurn(before, c.turnId), c.userInput)
    ensures !BlockedTurn(before, c.turnId)
    ensures OfTurn(after, c.turnId) == OfTurn(before, c.turnId)
  {
    RowMeaning(before, c.turnId);
    assert ContextOf(k, OfTurn(before, c.turnId), c.turnId) == Some(c);
    ContextInput(k, OfTurn(before, c.turnId), c.turnId);
    hide ClosedIn, Fold, OfTurn, InOrder, BlockedTurn, IncompleteOf, RowOf, FirstStarted, AsI32, InputOfStart;
  }

  /**
   Every incomplete turn is either handed back, and then still incomplete, or closed by its closing
   events, and then no longer incomplete; which of the two depends on its blocking in-flight steps.
   */
  lemma RecoverySplits(k: string, before: Log, after: Log, queue: seq<RedoContext>, turn: int)
    requires Recovered(k, before, after, queue) && InOrder(before) && turn in Fold(before).activeTurns
    ensures turn in ReturnedTurns(queue) <==> !BlockedTurn(before, turn)
    ensures turn in Fold(after).activeTurns <==> !BlockedTurn(before, turn)
    ensures BlockedTurn(before, turn) ==> ClosedIn(before, after, turn)
  {
    ReturnedAreUnblocked(k, before, after, queue);
    hide ClosedIn, Fold, OfTurn, InOrder, BlockedTurn, Queued, ReturnedTurns;
  }

  function CountType(evs: seq<Event>, t: EventType): nat {
    if evs == [] then 0
    else CountType(evs[..|evs| - 1], t) + if evs[|evs| - 1].etype == t then 1 else 0
  }

  lemma CountTypeSnoc(evs: seq<Event>, ev: Event, t: EventType)
    ensures CountType(evs + [ev], t) == CountType(evs, t) + if ev.etype == t then 1 else 0
  {
    assert (evs + [ev])[..|evs|] == evs;
  }

  lemma {:induction false} FailuresCount(turn: int, ids: seq<string>)
    ensures CountType(Failures(turn, ids), TurnFailed) == 0 && CountType(Failures(turn, ids), ToolFailed) == |ids|
  {
    if ids != [] {
      var before, ev := Failures(turn, ids[..|ids| - 1]), ToolFailedEvent(Some(turn), ids[|ids| - 1]);
      FailuresCount(turn, ids[..|ids| - 1]);
      CountTypeSnoc(before, ev, TurnFailed);
      CountTypeSnoc(before, ev, ToolFailed);
    }
  }

  lemma {:induction false} CountTypeConcat(a: seq<Event>, b: seq<Event>, t: EventType)
    ensures CountType(a + b, t) == CountType(a, t) + CountType(b, t)
  {
    if b == [] {
      assert a + b == a;
    } else {
      CountTypeConcat(a, b[..|b| - 1], t);
      assert (a + b)[..|a + b| - 1] == a + b[..|b| - 1];
    }
  }

  lemma {:induction false} ListsCount(ids: seq<string>, s: set<string>)
    requires Lists(ids, s)
    ensures |ids| == |s|
    decreases |ids|
  {
    if ids == [] {
      assert s == {};
    } else {
      var before, sid := ids[..|ids| - 1], ids[|ids| - 1];
      forall x ensures x in before <==> x in s - {sid} {
        if x in before {
          assert x in ids;
        }
      }
      assert sid in ids;
      ListsCount(before, s - {sid});
    }
  }

  /** A closed turn gains exactly one `turn_failed`, its last event, and one `tool_failed` per blocking step. */
  lemma ClosedByOneTurnFailed(before: Log, after: Log, turn: int)
    requires ClosedIn(before, after, turn)
    ensures var old_, new_ := Evs(OfTurn(before, turn)), Evs(OfTurn(after, turn));
            && new_ != [] && new_[|new_| - 1] == TurnFailedEvent(turn)
            && CountType(new_, TurnFailed) == CountType(old_, TurnFailed) + 1
            && CountType(new_, ToolFailed) == CountType(old_, ToolFailed) + |Blocking(Fold(before).activeSteps, turn)|
  {
    hide Fold, OfTurn, Blocking, Evs, NoRepeats, CountType;
    var ids :| Lists(ids, Blocking(Fold(before).activeSteps, turn))
               && Evs(OfTurn(after, turn)) == Evs(OfTurn(before, turn)) + CloseEvents(turn, ids);
    FailuresCount(turn, ids);
    CountTypeSnoc(Failures(turn, ids), TurnFailedEvent(turn), TurnFailed);
    CountTypeSnoc(Failures(turn, ids), TurnFailedEvent(turn), ToolFailed);
    CountTypeConcat(Evs(OfTurn(before, turn)), CloseEvents(turn, ids), TurnFailed);
    CountTypeConcat(Evs(OfTurn(before, turn)), CloseEvents(turn, ids), ToolFailed);
    ListsCount(ids, Blocking(Fold(before).activeSteps, turn));
  }

  // ---------------------------------------------------------------- the fixed point

  /** After a recovery the incomplete turns are exactly the returned ones. */
  lemma IncompleteAfterIsReturned(k: string, before: Log, after: Log, queue: seq<RedoContext>)
    requires Recovered(k, before, after, queue) && InOrder(before)
    ensures Fold(after).activeTurns == ReturnedTurns(queue)
  {
    ReturnedAreUnblocked(k, before, after, queue);
    hide ClosedIn, Fold, OfTurn, InOrder, Queued, ReturnedTurns;
  }

  /** No incomplete turn has a blocking step left. */
  lemma NothingBlocksAfter(k: string, before: Log, after: Log, queue: seq<RedoContext>, turn: int)
    requires Recovered(k, before, after, queue) && turn in Fold(after).activeTurns
    ensures !BlockedTurn(after, turn)
  {
    var blocked := BlockedAmong(before, Fold(before).activeTurns);
    OthersBlockingStays(Fold(before).activeSteps, blocked, turn);
    hide ClosedIn, Fold, OfTurn, InOrder, Queued, Blocking, BlockingIn;
  }

  /**
   No returned turn has an in-flight step that is not a named call of a read-only or an idempotent
   tool.
   */
  lemma ReturnedStepsAreSafe(k: string, before: Log, after: Log, queue: seq<RedoContext>, c: RedoContext, sid: string)
    requires Recovered(k, before, after, queue) && InOrder(before) && c in queue
    requires StepOpen(after, sid)
    requires GetOr(after[Last(after, StepMoves(sid)).value].ev.turnId, 0) == c.turnId
    ensures var tool := after[Last(after, StepMoves(sid)).value].ev.payload.toolName;
            tool.Some? && tool.value in READ_ONLY_TOOLS + IDEMPOTENT_TOOLS && tool.value !in NON_IDEMPOTENT_TOOLS
  {
    var r := after[Last(after, StepMoves(sid)).value];
    IncompleteAfterIsReturned(k, before, after, queue);
    assert c.turnId in ReturnedTurns(queue);
    NothingBlocksAfter(k, before, after, queue, c.turnId);
    ActiveStepsMeaning(after, sid);
    hide Recovered, Fold, OfTurn, InOrder, StepOpen, Blocks;
    SafeIffListed(r.ev.payload);
    assert sid !in Blocking(Fold(after).activeSteps, c.turnId);
    if r.ev.payload.toolName.Some? && r.ev.payload.toolName.value in NON_IDEMPOTENT_TOOLS {
      WritesAreNeverSafe(r.ev.payload.toolName.value);
    }
  }

  /**
   The steps in flight after a recovery are those before it, except the blocking ones of the turns it
   closed: a closed turn's steps of safe tools are left open.
   */
  lemma StepsLeftOpenIff(k: string, before: Log, after: Log, queue: seq<RedoContext>, sid: string)
    requires Recovered(k, before, after, queue)
    ensures StepOpen(after, sid) <==>
            StepOpen(before, sid) &&
            (var r := before[Last(before, StepMoves(sid)).value];
             var turn := GetOr(r.ev.turnId, 0);
             !(turn in Fold(before).activeTurns && BlockedTurn(before, turn) && Blocks(r.ev.payload)))
  {
    ActiveStepsMeaning(before, sid);
    ActiveStepsMeaning(after, sid);
    var last := Last(before, StepMoves(sid));
    assert StepOpen(before, sid) ==> last.Some?;
    hide ClosedIn, Fold, OfTurn, InOrder, Queued, StepOpen, Blocks;
    if StepOpen(before, sid) {
      var active, r := Fold(before).activeSteps, before[last.value];
      assert active[sid] == r;
      assert Blocks(r.ev.payload) ==> sid in Blocking(active, GetOr(r.ev.turnId, 0));
    }
  }

  lemma RowsStay(k: string, before: Log, after: Log, queue: seq<RedoContext>, turn: int)
    requires Recovered(k, before, after, queue) && turn in Fold(after).activeTurns
    ensures OfTurn(after, turn) == OfTurn(before, turn)
  {
    hide ClosedIn, Fold, OfTurn, InOrder, Queued;
  }

  /** A second recovery appends nothing and hands back the same contexts. */
  lemma SecondRecoveryIsIdle(k: string, l0: Log, l1: Log, l2: Log, first: seq<RedoContext>, second: seq<RedoContext>)
    requires InOrder(l0) && Recovered(k, l0, l1, first) && Recovered(k, l1, l2, second)
    ensures l2 == l1
    ensures |second| == |first| && forall c :: c in second <==> c in first
  {
    IncompleteAfterIsReturned(k, l0, l1, first);
    ReturnedAreUnblocked(k, l0, l1, first);
    forall t | t in Fold(l1).activeTurns ensures !BlockedTurn(l1, t) && OfTurn(l1, t) == OfTurn(l0, t) {
      NothingBlocksAfter(k, l0, l1, first, t);
      RowsStay(k, l0, l1, first, t);
    }
    assert BlockedAmong(l1, Fold(l1).activeTurns) == {};
    hide ClosedIn, Fold, OfTurn, InOrder, BlockedTurn, ContextOf, ReturnedTurns;
    NothingAppended(l1, l2, {});
    forall c ensures c in second <==> c in first {
    }
    SameLength(first, second);
  }

  /** A new record would belong to a closed turn. */
  lemma NothingAppended(before: Log, after: Log, closed: set<int>)
    requires before <= after
    requires forall i :: |before| <= i < |after| ==> after[i].ev.turnId.Some? && after[i].ev.turnId.value in closed
    ensures closed == {} ==> after == before
  {
    if |after| > |before| {
      assert after[|before|].ev.turnId.value in closed;
    }
  }

  lemma {:induction false} SameLength(a: seq<RedoContext>, b: seq<RedoContext>)
    requires forall i, j :: 0 <= i < j < |a| ==> a[i].turnId != a[j].turnId
    requires forall i, j :: 0 <= i < j < |b| ==> b[i].turnId != b[j].turnId
    requires forall c :: c in a <==> c in b
    ensures |a| == |b|
  {
    DistinctSize(a);
    DistinctSize(b);
    assert (set c | c in a) == (set c | c in b);
  }

  lemma {:induction false} DistinctSize(a: seq<RedoContext>)
    requires forall i, j :: 0 <= i < j < |a| ==> a[i].turnId != a[j].turnId
    ensures |set c | c in a| == |a|
  {
    if a != [] {
      var before, c := a[..|a| - 1], a[|a| - 1];
      DistinctSize(before);
      assert c !in before;
      assert (set x | x in a) == (set x | x in before) + {c} by {
        assert a == before + [c];
      }
    }
  }

  // ---------------------------------------------------------------- step types and redo data

  /** An in-flight model call without a tool name always blocks its turn. */
  lemma ModelCallBlocks(log: Log, turn: int, sid: string)
    requires sid in Fold(log).activeSteps && Fold(log).activeSteps[sid].ev.turnId == Some(turn)
    requires Fold(log).activeSteps[sid].ev.etype.LlmInvoked? && Fold(log).activeSteps[sid].ev.payload.toolName.None?
    ensures sid in Blocking(Fold(log).activeSteps, turn)
  {
    SafeIffListed(Fold(log).activeSteps[sid].ev.payload);
    hide Fold, Blocks;
  }

  lemma {:induction false} FailuresMembers(turn: int, ids: seq<string>, ev: Event)
    ensures ev in Failures(turn, ids) <==> exists sid | sid in ids :: ev == ToolFailedEvent(Some(turn), sid)
  {
    if ids != [] {
      var before, last := ids[..|ids| - 1], ids[|ids| - 1];
      FailuresMembers(turn, before, ev);
      assert ids == before + [last];
    }
  }

  lemma EvsMember(log: Log, ev: Event)
    ensures ev in Evs(log) <==> exists r | r in log :: r.ev == ev
  {
    if ev in Evs(log) {
      var i :| 0 <= i < |log| && Evs(log)[i] == ev;
      assert log[i] in log;
    }
    if r :| r in log && r.ev == ev {
      var i :| 0 <= i < |log| && log[i] == r;
      assert Evs(log)[i] == ev;
    }
  }

  /** What a recovery writes for a closed turn are its closing events. */
  lemma NewEventsOfClosed(before: Log, after: Log, turn: int) returns (ids: seq<string>)
    requires before <= after && ClosedIn(before, after, turn)
    ensures Lists(ids, Blocking(Fold(before).activeSteps, turn))
    ensures Evs(OfTurn(after[|before|..], turn)) == CloseEvents(turn, ids)
  {
    ids :| Lists(ids, Blocking(Fold(before).activeSteps, turn))
           && Evs(OfTurn(after, turn)) == Evs(OfTurn(before, turn)) + CloseEvents(turn, ids);
    hide Fold, OfTurn, Lists, CloseEvents, Blocking;
    assert after == before + after[|before|..];
    OfTurnAppend(before, after[|before|..], turn);
    var o, n := OfTurn(before, turn), OfTurn(after[|before|..], turn);
    assert Evs(o + n) == Evs(o) + Evs(n);
    assert Evs(n) == (Evs(o) + Evs(n))[|Evs(o)|..];
  }

  lemma FailureAmongClosing(turn: int, ids: seq<string>, ev: Event)
    requires ev in CloseEvents(turn, ids) && ev.etype.ToolFailed?
    ensures ev.stepId.Some? && ev.stepId.value in ids
  {
    assert ev != TurnFailedEvent(turn);
    FailuresMembers(turn, ids, ev);
    hide Failures;
  }

  lemma NewRecordOfClosed(before: Log, after: Log, closed: set<int>, i: nat)
    requires Progress(before, after, closed) && |before| <= i < |after|
    ensures after[i].ev.turnId.Some?
    ensures var t := after[i].ev.turnId.value;
            t in closed && ClosedIn(before, after, t) && after[i].ev in Evs(OfTurn(after[|before|..], t))
  {
    hide Fold, ClosedIn, InOrder;
    var t, news := after[i].ev.turnId.value, after[|before|..];
    assert news[i - |before|] == after[i];
    OfTurnAll(news, t, i - |before|);
    EvsMember(OfTurn(news, t), after[i].ev);
    hide OfTurn, Evs;
  }

  /** The written tool failures are those of the blocking steps of the closed turns. */
  lemma NewFailureIsBlocking(before: Log, after: Log, closed: set<int>, i: nat)
    requires Progress(before, after, closed)
    requires |before| <= i < |after| && after[i].ev.etype.ToolFailed?
    ensures after[i].ev.stepId.Some? && after[i].ev.stepId.value in BlockingIn(Fold(before).activeSteps, closed)
  {
    NewRecordOfClosed(before, after, closed, i);
    hide Progress, Fold, OfTurn, NoRepeats, Blocks, Evs, CloseEvents, ClosedIn;
    var t := after[i].ev.turnId.value;
    assert before <= after by {
      PrefixOfProgress(before, after, closed);
    }
    var ids := NewEventsOfClosed(before, after, t);
    FailureAmongClosing(t, ids, after[i].ev);
  }

  lemma PrefixOfProgress(before: Log, after: Log, closed: set<int>)
    requires Progress(before, after, closed)
    ensures before <= after
  {
  }

  lemma BlockingIsFailed(before: Log, after: Log, closed: set<int>, sid: string) returns (i: nat)
    requires Progress(before, after, closed) && sid in BlockingIn(Fold(before).activeSteps, closed)
    ensures |before| <= i < |after| && after[i].ev.etype.ToolFailed? && after[i].ev.stepId == Some(sid)
  {
    var t, news := GetOr(Fold(before).activeSteps[sid].ev.turnId, 0), after[|before|..];
    assert ClosedIn(before, after, t);
    var ids := NewEventsOfClosed(before, after, t);
    assert sid in Blocking(Fold(before).activeSteps, t);
    var ev := ToolFailedEvent(Some(t), sid);
    FailuresMembers(t, ids, ev);
    EvsMember(OfTurn(news, t), ev);
    hide Fold, NoRepeats, Blocks;
    var r :| r in OfTurn(news, t) && r.ev == ev;
    OfTurnFrom(news, t, r);
    var j :| 0 <= j < |news| && news[j] == r;
    i := |before| + j;
  }

  /** The end's type goes with the start that its step has in flight. */
  predicate EndMatches(active: Active, ev: Event) {
    ev.stepId.Some? && ev.stepId.value in active && MatchesStartType(active[ev.stepId.value].ev.etype, ev.etype)
  }

  /** Every tool failure from position `n` on matches the start its step had in flight. */
  ghost predicate EndsMatch(active: Active, log: Log, n: nat) {
    forall i :: n <= i < |log| && log[i].ev.etype.ToolFailed? ==> EndMatches(active, log[i].ev)
  }

  ghost predicate NoModelCall(active: Active, sids: set<string>) {
    forall sid | sid in sids && sid in active :: !active[sid].ev.etype.LlmInvoked?
  }

  lemma MatchAt(active: Active, log: Log, n: nat, i: nat)
    requires EndsMatch(active, log, n) && n <= i < |log| && log[i].ev.etype.ToolFailed?
    ensures EndMatches(active, log[i].ev)
  {
  }

  lemma ToolStartsMatch(active: Active, ev: Event, sid: string)
    requires EndMatches(active, ev) && ev.etype.ToolFailed? && ev.stepId == Some(sid)
    ensures sid in active && !active[sid].ev.etype.LlmInvoked?
  {
  }

  lemma MatchingNeedsTools(before: Log, after: Log, closed: set<int>, sid: string)
    requires Progress(before, after, closed) && EndsMatch(Fold(before).activeSteps, after, |before|)
    requires sid in BlockingIn(Fold(before).activeSteps, closed)
    ensures sid in Fold(before).activeSteps && !Fold(before).activeSteps[sid].ev.etype.LlmInvoked?
  {
    hide Progress, BlockingIn, EndsMatch, EndMatches, Fold;
    var i := BlockingIsFailed(before, after, closed, sid);
    MatchAt(Fold(before).activeSteps, after, |before|, i);
    ToolStartsMatch(Fold(before).activeSteps, after[i].ev, sid);
  }

  lemma ToolsMatch(before: Log, after: Log, closed: set<int>, i: nat)
    requires Progress(before, after, closed)
    requires NoModelCall(Fold(before).activeSteps, BlockingIn(Fold(before).activeSteps, closed))
    requires |before| <= i < |after| && after[i].ev.etype.ToolFailed?
    ensures EndMatches(Fold(before).activeSteps, after[i].ev)
  {
    NewFailureIsBlocking(before, after, closed, i);
    ActiveStepsMeaning(before, after[i].ev.stepId.value);
    hide Fold, Progress, Blocks, Last;
  }

  /**
   Every `tool_failed` that a recovery writes matches the start of its step if and only if none of the
   blocking steps of the closed turns is a model call.
   */
  lemma ClosingMatchesIff(k: string, before: Log, after: Log, queue: seq<RedoContext>)
    requires Recovered(k, before, after, queue)
    ensures var active, closed := Fold(before).activeSteps, BlockedAmong(before, Fold(before).activeTurns);
            EndsMatch(active, after, |before|) <==> NoModelCall(active, BlockingIn(active, closed))
  {
    var active, closed := Fold(before).activeSteps, BlockedAmong(before, Fold(before).activeTurns);
    hide Fold, Progress, Queued, BlockedAmong, BlockingIn, EndMatches;
    if EndsMatch(active, after, |before|) {
      forall sid | sid in BlockingIn(active, closed) && sid in active ensures !active[sid].ev.etype.LlmInvoked? {
        MatchingNeedsTools(before, after, closed, sid);
      }
    }
    if NoModelCall(active, BlockingIn(active, closed)) {
      forall i | |before| <= i < |after| && after[i].ev.etype.ToolFailed? ensures EndMatches(active, after[i].ev) {
        ToolsMatch(before, after, closed, i);
      }
    }
  }

  lemma {:induction false} OfTurnPrefix(log: Log, more: Log, turn: int)
    requires log <= more
    ensures OfTurn(log, turn) <= OfTurn(more, turn)
  {
    if |more| > |log| {
      OfTurnPrefix(log, more[..|more| - 1], turn);
    } else {
      assert log == more;
    }
  }

  lemma ContextOfStarted(k: string, records: Log, turn: int, input: string, group: string)
    requires records != [] && records[0].ev == StartedEvent(turn, input, group)
    ensures ContextOf(k, records, turn) == Some(RedoContext(k, turn, group, 1, input))
  {
    assert Evs(records)[0] == records[0].ev;
    assert AsI32(0) == 0 && AsI32(1) == 1;
    hide AsI32;
  }

  lemma FirstOfFreshTurn(log: Log, ev: Event, turn: int, more: Log)
    requires InOrder(log) && !HasTurn(log, turn) && ev.turnId == Some(turn) && Append(log, ev) <= more
    ensures OfTurn(more, turn) != [] && OfTurn(more, turn)[0].ev == ev
  {
    TurnOfRecords(log, turn);
    OfTurnPrefix(Append(log, ev), more, turn);
    assert Append(log, ev)[..|log|] == log;
    assert OfTurn(Append(log, ev), turn) == [Record(NextSeq(log), ev)];
    hide HasTurn, OfTurn, InOrder, NextSeq;
  }

  /**
   A turn opened by `start_turn` is handed back, in every recovery of every continuation of its log,
   with the redo group and the input it was started with, and a redo count of one.
   */
  lemma StartedTurnKeepsRedoData(k: string, log: Log, input: string, group: string, more: Log)
    requires InOrder(log)
    requires Append(log, StartedEvent(NextTurnId(log), input, group)) <= more
    ensures ContextOf(k, OfTurn(more, NextTurnId(log)), NextTurnId(log))
            == Some(RedoContext(k, NextTurnId(log), group, 1, input))
  {
    MaxTurnMeaning(log);
    hide Fold, HasTurn, OfTurn, InOrder, ContextOf;
    FirstOfFreshTurn(log, StartedEvent(NextTurnId(log), input, group), NextTurnId(log), more);
    ContextOfStarted(k, OfTurn(more, NextTurnId(log)), NextTurnId(log), input, group);
  }

  /**
   Such a turn comes back from a recovery of any later log, with exactly that context, if and only if it
   is still incomplete and nothing of it blocks.
   */
  lemma StartedTurnReturnsIff(k: string, log: Log, input: string, group: string, more: Log, after: Log, queue: seq<RedoContext>)
    requires InOrder(log) && Append(log, StartedEvent(NextTurnId(log), input, group)) <= more
    requires Recovered(k, more, after, queue)
    ensures RedoContext(k, NextTurnId(log), group, 1, input) in queue
       <==> NextTurnId(log) in Fold(more).activeTurns && !BlockedTurn(more, NextTurnId(log))
    ensures forall c :: c in queue && c.turnId == NextTurnId(log) ==> c == RedoContext(k, NextTurnId(log), group, 1, input)
  {
    StartedTurnKeepsRedoData(k, log, input, group, more);
    hide Fold, OfTurn, InOrder, ContextOf, NextTurnId, StartedEvent, Progress, BlockedTurn;
  }
}
