/**
 The reference store: the same queries answered by scanning and joining the
 log, and for each of them how far the incrementally kept projection agrees.
 */
module ReferenceStore {
  import opened Wrappers
  import opened Events
  import opened Projection
  import opened ProjectionFacts

  // ---------------------------------------------------------------- task state

  /** The greatest sequence number of a `turn_started`, if there is one. */
  function MaxStartedSeq(log: Log): Option<int> {
    if log == [] then None
    else
      var m, r := MaxStartedSeq(log[..|log| - 1]), log[|log| - 1];
      if r.ev.etype.TurnStarted? then Some(if m.Some? then Max(m.value, r.seqNo) else r.seqNo) else m
  }

  function DeriveTaskState(log: Log): TaskState {
    match Last(log, TaskEvents)
    case None => Created
    case Some(i) =>
      var base := TaskEventState(log[i].ev.etype);
      var m := MaxStartedSeq(log);
      if base.Claimed? && m.Some? && m.value > log[i].seqNo then Executing else base
  }

  lemma {:induction false} MaxStartedMeaning(log: Log, i: nat)
    requires InOrder(log) && i < |log|
    ensures StartedAfter(log, i) <==> MaxStartedSeq(log).Some? && MaxStartedSeq(log).value > log[i].seqNo
    ensures MaxStartedSeq(log).Some? ==> MaxStartedSeq(log).value <= log[|log| - 1].seqNo
  {
    var l := log[..|log| - 1];
    Unsnoc(log);
    LastIsNewest(log);
    StartedAfterSnoc(log, i);
    if l != [] {
      MaxStartedMeaning(l, if i < |l| then i else |l| - 1);
    }
    if i == |l| {
      assert !StartedAfter(log, i);
    }
  }

  /**
   The log scan and the projection derive the same task state except when the last task event is
   `task_ready` and a turn has started since: only the projection counts that as executing.
   */
  lemma TaskStateAgreesIff(log: Log)
    requires InOrder(log)
    ensures DeriveTaskState(log) == Fold(log).state
       <==> !(Last(log, TaskEvents).Some? && log[Last(log, TaskEvents).value].ev.etype.TaskReady?
              && StartedAfter(log, Last(log, TaskEvents).value))
  {
    StateMeaning(log);
    if Last(log, TaskEvents).Some? {
      MaxStartedMeaning(log, Last(log, TaskEvents).value);
    }
  }

  // ---------------------------------------------------------------- incomplete turns

  predicate EndsTurn(r: Record, t: int) {
    r.ev.turnId == Some(t) && r.ev.etype.IsTurnTerminal()
  }

  predicate StartsTurn(r: Record, t: int) {
    r.ev.turnId == Some(t) && r.ev.etype.TurnStarted?
  }

  predicate HasStart(log: Log, t: int) {
    exists i :: 0 <= i < |log| && StartsTurn(log[i], t)
  }

  predicate HasEnd(log: Log, t: int) {
    exists i :: 0 <= i < |log| && EndsTurn(log[i], t)
  }

  /** The anti-join: a `turn_started` without any terminal event of the same turn. */
  predicate RefIncomplete(log: Log, t: int) {
    HasStart(log, t) && !HasEnd(log, t)
  }

  lemma RefIncompleteIsOpen(log: Log, t: int)
    requires RefIncomplete(log, t)
    ensures TurnOpen(log, t)
  {
    var i :| 0 <= i < |log| && StartsTurn(log[i], t);
    assert Is(log[i], TurnMoves(t));
    var last := Last(log, TurnMoves(t)).value;
    assert !EndsTurn(log[last], t);
  }

  /**
   The incrementally kept active turns are those of the anti-join if and only if no turn that is open
   now had ended before.
   */
  lemma IncompleteTurnsAgreeIff(log: Log)
    ensures (forall t :: t in Fold(log).activeTurns <==> RefIncomplete(log, t))
       <==> (forall t :: TurnOpen(log, t) ==> !HasEnd(log, t))
  {
    forall t
      ensures t in Fold(log).activeTurns <==> TurnOpen(log, t)
      ensures RefIncomplete(log, t) ==> TurnOpen(log, t)
      ensures TurnOpen(log, t) ==> HasStart(log, t)
    {
      ActiveTurnsMeaning(log, t);
      if RefIncomplete(log, t) {
        RefIncompleteIsOpen(log, t);
      }
      if TurnOpen(log, t) {
        assert StartsTurn(log[Last(log, TurnMoves(t)).value], t);
      }
    }
    hide TurnOpen, HasEnd, HasStart, Fold;
  }

  /** The scan's row of one `turn_started`. */
  function RefRow(start: Record, t: int): IncompleteTurn {
    var pl := start.ev.payload;
    IncompleteTurn(t, GetOr(pl.redoGroup, "unknown"), AsI32(GetOr(pl.redoCount, 0)))
  }

  /** Equal redo data, seen through the default "?" on the left and "unknown" on the right. */
  predicate SameRedo(first: Payload, start: Payload) {
    && (match (first.redoGroup, start.redoGroup)
        case (Some(g), Some(h)) => g == h
        case (Some(g), None) => g == "unknown"
        case (None, Some(h)) => h == "?"
        case (None, None) => false)
    && AsI32(GetOr(first.redoCount, 0)) == AsI32(GetOr(start.redoCount, 0))
  }

  /**
   The two sides report the same row for a turn if and only if the turn's first record and its
   `turn_started` carry the same redo data; when the first record is that start, if and only if it names
   a redo group.
   */
  lemma IncompleteRowsAgreeIff(log: Log, t: int, i: nat)
    requires InOrder(log) && i < |log| && StartsTurn(log[i], t)
    ensures OfTurn(log, t) != []
    ensures IncompleteOf(Fold(log), t) == Some(RefRow(log[i], t))
       <==> SameRedo(OfTurn(log, t)[0].ev.payload, log[i].ev.payload)
    ensures OfTurn(log, t)[0] == log[i] ==>
              (IncompleteOf(Fold(log), t) == Some(RefRow(log[i], t)) <==> log[i].ev.payload.redoGroup.Some?)
  {
    RowMeaning(log, t);
    OfTurnAll(log, t, i);
    hide Fold, IncompleteOf, OfTurn, InOrder, AsI32;
    assert "?"[0] != "unknown"[0];
  }

  /** A hit of the anti-join: a start of the turn, which has no terminal event. */
  predicate Hit(log: Log, i: nat, t: int)
    requires i < |log|
  {
    StartsTurn(log[i], t) && !HasEnd(log, t)
  }

  /** The scan's rows, one for each hit, in log order. */
  function RefRows(log: Log, n: nat): seq<IncompleteTurn>
    requires n <= |log|
  {
    if n == 0 then []
    else
      var rest, id := RefRows(log, n - 1), log[n - 1].ev.turnId;
      if id.Some? && Hit(log, n - 1, id.value) then rest + [RefRow(log[n - 1], id.value)] else rest
  }

  lemma {:induction false} RefRowsMembers(log: Log, n: nat, r: IncompleteTurn)
    requires n <= |log|
    ensures r in RefRows(log, n) <==> exists i :: 0 <= i < n && Hit(log, i, r.turnId) && r == RefRow(log[i], r.turnId)
  {
    if n > 0 {
      RefRowsMembers(log, n - 1, r);
      hide HasEnd;
      assert Hit(log, n - 1, r.turnId) ==> log[n - 1].ev.turnId == Some(r.turnId);
    }
  }

  predicate OncePerTurn(rows: seq<IncompleteTurn>) {
    forall i, j :: 0 <= i < j < |rows| ==> rows[i].turnId != rows[j].turnId
  }

  /** No turn without an end was started twice among the first `n` records. */
  ghost predicate StartedOnce(log: Log, n: nat)
    requires n <= |log|
  {
    forall i, j, t :: 0 <= i < j < n && Hit(log, i, t) ==> !Hit(log, j, t)
  }

  lemma OncePerTurnSnoc(rows: seq<IncompleteTurn>, r: IncompleteTurn)
    ensures OncePerTurn(rows + [r]) <==> OncePerTurn(rows) && forall x :: x in rows ==> x.turnId != r.turnId
  {
    var more := rows + [r];
    if OncePerTurn(more) {
      forall x | x in rows ensures x.turnId != r.turnId {
        var i :| 0 <= i < |rows| && rows[i] == x;
        assert more[i].turnId != more[|rows|].turnId;
      }
      forall i, j | 0 <= i < j < |rows| ensures rows[i].turnId != rows[j].turnId {
        assert more[i].turnId != more[j].turnId;
      }
    }
  }

  lemma {:induction false} RefRowsOncePerTurn(log: Log, n: nat)
    requires n <= |log|
    ensures OncePerTurn(RefRows(log, n)) <==> StartedOnce(log, n)
  {
    if n > 0 {
      RefRowsOncePerTurn(log, n - 1);
      var rest, id := RefRows(log, n - 1), log[n - 1].ev.turnId;
      hide HasEnd;
      if id.Some? && Hit(log, n - 1, id.value) {
        OncePerTurnSnoc(rest, RefRow(log[n - 1], id.value));
        EarlierRowIff(log, n - 1, id.value);
      }
      assert forall t :: Hit(log, n - 1, t) ==> id == Some(t);
      hide OncePerTurn, RefRow;
    }
  }

  lemma EarlierRowIff(log: Log, n: nat, t: int)
    requires n <= |log|
    ensures (exists r :: r in RefRows(log, n) && r.turnId == t) <==> exists i :: 0 <= i < n && Hit(log, i, t)
  {
    hide HasEnd, RefRows;
    if r :| r in RefRows(log, n) && r.turnId == t {
      RefRowsMembers(log, n, r);
    }
    if i :| 0 <= i < n && Hit(log, i, t) {
      RefRowsMembers(log, n, RefRow(log[i], t));
      assert RefRow(log[i], t) in RefRows(log, n);
    }
  }

  lemma {:induction false} CountOnce(rows: seq<IncompleteTurn>, r: IncompleteTurn)
    requires OncePerTurn(rows)
    ensures multiset(rows)[r] == if r in rows then 1 else 0
  {
    if rows != [] {
      var front, last := rows[..|rows| - 1], rows[|rows| - 1];
      assert rows == front + [last];
      OncePerTurnSnoc(front, last);
      CountOnce(front, r);
    }
  }

  lemma TwiceCounts(rows: seq<IncompleteTurn>, i: nat, j: nat)
    requires i < j < |rows| && rows[i] == rows[j]
    ensures multiset(rows)[rows[i]] >= 2
  {
    assert rows == rows[..i] + [rows[i]] + rows[i + 1..j] + [rows[j]] + rows[j + 1..];
  }

  /** A list with one row per turn is another list up to order if and only if they have the same rows and both have one per turn. */
  lemma SameUpToOrderIff(rows: seq<IncompleteTurn>, others: seq<IncompleteTurn>)
    requires OncePerTurn(rows)
    ensures multiset(rows) == multiset(others) <==> OncePerTurn(others) && forall r :: r in rows <==> r in others
  {
    forall r ensures multiset(rows)[r] == if r in rows then 1 else 0 {
      CountOnce(rows, r);
    }
    if multiset(rows) == multiset(others) {
      forall r ensures r in rows <==> r in others {
        assert r in rows <==> r in multiset(rows);
        assert r in others <==> r in multiset(others);
      }
      forall i, j | 0 <= i < j < |others| ensures others[i].turnId != others[j].turnId {
        assert others[i] in rows && others[j] in rows;
        if others[i] == others[j] {
          TwiceCounts(others, i, j);
        }
      }
    }
    if OncePerTurn(others) && forall r :: r in rows <==> r in others {
      forall r ensures multiset(rows)[r] == multiset(others)[r] {
        CountOnce(others, r);
      }
    }
  }

  /** The turn's last start is the only one of its moves, and says of a redo what the turn's first record says. */
  predicate OpenedCleanly(log: Log, t: int)
    requires TurnOpen(log, t)
  {
    var i := Last(log, TurnMoves(t)).value;
    && (forall j :: 0 <= j < i ==> !Is(log[j], TurnMoves(t)))
    && OfTurn(log, t) != [] && SameRedo(OfTurn(log, t)[0].ev.payload, log[i].ev.payload)
  }

  predicate HitRow(log: Log, n: nat, r: IncompleteTurn)
    requires n <= |log|
  {
    exists i :: 0 <= i < n && Hit(log, i, r.turnId) && r == RefRow(log[i], r.turnId)
  }

  /** The two sides have the same rows of one turn. */
  ghost predicate SameRowsOf(log: Log, t: int) {
    && (forall i, j :: 0 <= i < j < |log| && Hit(log, i, t) ==> !Hit(log, j, t))
    && (forall r: IncompleteTurn :: r.turnId == t ==> (Listed(Fold(log), Fold(log).activeTurns, r) <==> HitRow(log, |log|, r)))
  }

  lemma NoRowsOfClosed(log: Log, t: int)
    requires !TurnOpen(log, t)
    ensures SameRowsOf(log, t)
  {
    ActiveTurnsMeaning(log, t);
    if i :| 0 <= i < |log| && Hit(log, i, t) {
      RefIncompleteIsOpen(log, t);
    }
    hide Fold, HasEnd, TurnOpen, RefRow;
  }

  lemma OnlyHit(log: Log, t: int)
    requires TurnOpen(log, t)
    ensures var i := Last(log, TurnMoves(t)).value;
            && (!HasEnd(log, t) ==> Hit(log, i, t))
            && ((forall j :: 0 <= j < i ==> !Is(log[j], TurnMoves(t))) <==>
                Hit(log, i, t) && forall j :: 0 <= j < |log| && Hit(log, j, t) ==> j == i)
  {
    var i := Last(log, TurnMoves(t)).value;
    assert StartsTurn(log[i], t);
    if forall j :: 0 <= j < i ==> !Is(log[j], TurnMoves(t)) {
      forall j | 0 <= j < |log| && j != i ensures !EndsTurn(log[j], t) && !StartsTurn(log[j], t) {
        assert !Is(log[j], TurnMoves(t));
      }
    }
    if Hit(log, i, t) && forall j :: 0 <= j < |log| && Hit(log, j, t) ==> j == i {
      forall j | 0 <= j < i ensures !Is(log[j], TurnMoves(t)) {
        assert !Hit(log, j, t) && !EndsTurn(log[j], t);
      }
    }
  }

  lemma OpenRow(log: Log, t: int) returns (row: IncompleteTurn)
    requires InOrder(log) && TurnOpen(log, t)
    ensures row.turnId == t && OfTurn(log, t) != []
    ensures forall r: IncompleteTurn :: r.turnId == t ==> (Listed(Fold(log), Fold(log).activeTurns, r) <==> r == row)
    ensures var i := Last(log, TurnMoves(t)).value;
            row == RefRow(log[i], t) <==> SameRedo(OfTurn(log, t)[0].ev.payload, log[i].ev.payload)
  {
    var i := Last(log, TurnMoves(t)).value;
    assert StartsTurn(log[i], t);
    ActiveTurnsMeaning(log, t);
    RowMeaning(log, t);
    IncompleteRowsAgreeIff(log, t, i);
    row := IncompleteOf(Fold(log), t).value;
    hide Fold, OfTurn, InOrder, AsI32, IncompleteOf, RefRow, SameRedo;
  }

  lemma SameRowsOfIff(log: Log, t: int)
    requires InOrder(log) && TurnOpen(log, t)
    ensures OfTurn(log, t) != []
    ensures SameRowsOf(log, t) <==> OpenedCleanly(log, t)
  {
    var i := Last(log, TurnMoves(t)).value;
    OfTurnAll(log, t, i);
    OnlyHit(log, t);
    var row := OpenRow(log, t);
    hide Fold, OfTurn, InOrder, TurnOpen, HasEnd, RefRow, SameRedo, Listed;
    if OpenedCleanly(log, t) {
      assert HitRow(log, |log|, row);
    }
    if SameRowsOf(log, t) {
      assert HitRow(log, |log|, row);
    }
  }

  /**
   The two stores list the same incomplete turns, row by row and up to order, if and only if every open
   turn was started once, had not ended before, and its start says of a redo what its first record says.
   */
  lemma IncompleteListsAgreeIff(log: Log, rows: seq<IncompleteTurn>)
    requires InOrder(log) && OncePerTurn(rows)
    requires forall r :: r in rows <==> Listed(Fold(log), Fold(log).activeTurns, r)
    ensures multiset(rows) == multiset(RefRows(log, |log|)) <==> forall t :: TurnOpen(log, t) ==> OpenedCleanly(log, t)
  {
    var refs := RefRows(log, |log|);
    SameUpToOrderIff(rows, refs);
    RefRowsOncePerTurn(log, |log|);
    forall r ensures r in refs <==> HitRow(log, |log|, r) {
      RefRowsMembers(log, |log|, r);
    }
    forall t
      ensures TurnOpen(log, t) ==> (SameRowsOf(log, t) <==> OpenedCleanly(log, t))
      ensures !TurnOpen(log, t) ==> SameRowsOf(log, t)
    {
      if TurnOpen(log, t) {
        SameRowsOfIff(log, t);
      } else {
        NoRowsOfClosed(log, t);
      }
    }
    hide Fold, InOrder, TurnOpen, OpenedCleanly, Hit, HitRow, Listed, RefRows, OncePerTurn;
    SameRowsEverywhere(log, rows, refs);
  }

  lemma SameRowsEverywhere(log: Log, rows: seq<IncompleteTurn>, refs: seq<IncompleteTurn>)
    requires forall r :: r in rows <==> Listed(Fold(log), Fold(log).activeTurns, r)
    requires forall r :: r in refs <==> HitRow(log, |log|, r)
    ensures StartedOnce(log, |log|) && (forall r :: r in rows <==> r in refs) <==> forall t :: SameRowsOf(log, t)
  {
    hide Fold, Hit, HitRow, Listed;
    if forall t :: SameRowsOf(log, t) {
      forall r ensures r in rows <==> r in refs {
        assert SameRowsOf(log, r.turnId);
      }
      forall i, j, t | 0 <= i < j < |log| && Hit(log, i, t) ensures !Hit(log, j, t) {
        assert SameRowsOf(log, t);
      }
    }
  }


  // ---------------------------------------------------------------- incomplete steps

  predicate HasStepEnd(log: Log, sid: string) {
    exists i :: 0 <= i < |log| && Is(log[i], StepEnds(sid))
  }

  predicate OpensStep(r: Record, sid: string) {
    r.ev.stepId == Some(sid) && r.ev.etype.IsStepStart()
  }

  /** A row of the anti-join: an invocation whose step has no terminal event. */
  predicate RefOpenStep(log: Log, i: nat, sid: string) {
    i < |log| && OpensStep(log[i], sid) && !HasStepEnd(log, sid)
  }

  /** The row that the projection keeps for a step: the last move, if it is an invocation. */
  predicate KeptStep(log: Log, i: nat, sid: string) {
    StepOpen(log, sid) && Last(log, StepMoves(sid)).value == i
  }

  /** A step that is open now was never seen before its last invocation. */
  ghost predicate OpenStepsAreFresh(log: Log) {
    forall sid, k | StepOpen(log, sid) && 0 <= k < Last(log, StepMoves(sid)).value :: !Is(log[k], StepMoves(sid))
  }

  /** Step by step, the anti-join and the projection list the same invocations if and only if open steps are fresh. */
  lemma IncompleteStepsAgreeIff(log: Log)
    ensures (forall i, sid :: RefOpenStep(log, i, sid) <==> KeptStep(log, i, sid)) <==> OpenStepsAreFresh(log)
  {
    if OpenStepsAreFresh(log) {
      forall i: nat, sid ensures RefOpenStep(log, i, sid) <==> KeptStep(log, i, sid) {
        FreshRowsAgree(log, i, sid);
      }
    }
    if forall i, sid :: RefOpenStep(log, i, sid) <==> KeptStep(log, i, sid) {
      forall sid, k | StepOpen(log, sid) && 0 <= k < Last(log, StepMoves(sid)).value
        ensures !Is(log[k], StepMoves(sid))
      {
        var last := Last(log, StepMoves(sid)).value;
        assert RefOpenStep(log, last, sid) <==> KeptStep(log, last, sid);
        assert !HasStepEnd(log, sid) && !Is(log[k], StepEnds(sid));
        assert RefOpenStep(log, k, sid) <==> KeptStep(log, k, sid);
        assert Is(log[k], StepMoves(sid)) <==> OpensStep(log[k], sid);
      }
    }
  }

  lemma FreshRowsAgree(log: Log, i: nat, sid: string)
    requires OpenStepsAreFresh(log)
    ensures RefOpenStep(log, i, sid) <==> KeptStep(log, i, sid)
  {
    assert forall k :: 0 <= k < |log| && Is(log[k], StepEnds(sid)) ==> Is(log[k], StepMoves(sid));
    assert i < |log| && OpensStep(log[i], sid) ==> Is(log[i], StepMoves(sid));
    if RefOpenStep(log, i, sid) {
      var last := Last(log, StepMoves(sid)).value;
      assert !Is(log[last], StepEnds(sid));
      assert StepOpen(log, sid);
    }
  }

  // ---------------------------------------------------------------- joined steps

  /** The first terminal event of a step among a turn's events. */
  function FirstEnd(evs: seq<Event>, sid: string): Option<EventType> {
    if evs == [] then None
    else if evs[0].stepId == Some(sid) && evs[0].etype.IsStepTerminal() then Some(evs[0].etype)
    else FirstEnd(evs[1..], sid)
  }

  /** A start without a step id is joined under the empty one. */
  function JoinRow(evs: seq<Event>, ev: Event): seq<StepExecution> {
    var sid := GetOr(ev.stepId, "");
    if ev.etype.IsStepStart() && FirstEnd(evs, sid).Some?
    then [StepExecution(sid, ev.payload.stepType, FirstEnd(evs, sid))] else []
  }

  function JoinRows(all: seq<Event>, evs: seq<Event>): seq<StepExecution> {
    if evs == [] then [] else JoinRow(all, evs[0]) + JoinRows(all, evs[1..])
  }

  /** The inner join of a turn's invocations with their terminal events. */
  function RefTurnSteps(log: Log, t: int): seq<StepExecution> {
    JoinRows(Evs(OfTurn(log, t)), Evs(OfTurn(log, t)))
  }

  function EndsUpTo(evs: seq<Event>): map<string, EventType> {
    if evs == [] then map[]
    else
      var m, ev := EndsUpTo(evs[..|evs| - 1]), evs[|evs| - 1];
      if ev.stepId.Some? && ev.etype.IsStepTerminal() && ev.stepId.value !in m then m[ev.stepId.value := ev.etype] else m
  }

  lemma {:induction false} FirstEndSnoc(evs: seq<Event>, ev: Event, sid: string)
    ensures FirstEnd(evs + [ev], sid) ==
            if FirstEnd(evs, sid).Some? then FirstEnd(evs, sid)
            else if ev.stepId == Some(sid) && ev.etype.IsStepTerminal() then Some(ev.etype) else None
  {
    if evs == [] {
      assert evs + [ev] == [ev];
    } else {
      assert (evs + [ev])[1..] == evs[1..] + [ev];
      FirstEndSnoc(evs[1..], ev, sid);
    }
  }

  lemma {:induction false} EndsUpToMeaning(evs: seq<Event>, sid: string)
    ensures FirstEnd(evs, sid) == if sid in EndsUpTo(evs) then Some(EndsUpTo(evs)[sid]) else None
  {
    if evs != [] {
      EndsUpToMeaning(evs[..|evs| - 1], sid);
      FirstEndSnoc(evs[..|evs| - 1], evs[|evs| - 1], sid);
      assert evs == evs[..|evs| - 1] + [evs[|evs| - 1]];
    }
  }

  method IndexTerminals(evs: seq<Event>) returns (terminals: map<string, EventType>)
    ensures forall sid :: FirstEnd(evs, sid) == if sid in terminals then Some(terminals[sid]) else None
    ensures terminals == EndsUpTo(evs)
  {
    terminals := map[];
    for i := 0 to |evs|
      invariant terminals == EndsUpTo(evs[..i])
    {
      assert evs[..i + 1][..i] == evs[..i];
      var ev := evs[i];
      if ev.etype.IsStepTerminal() && ev.stepId.Some? && ev.stepId.value !in terminals {
        terminals := terminals[ev.stepId.value := ev.etype];
      }
    }
    assert evs[..|evs|] == evs;
    hide EndsUpTo, FirstEnd;
    forall sid ensures FirstEnd(evs, sid) == if sid in terminals then Some(terminals[sid]) else None {
      EndsUpToMeaning(evs, sid);
    }
  }

  lemma JoinRowsStep(all: seq<Event>, evs: seq<Event>, i: nat)
    requires i < |evs|
    ensures JoinRows(all, evs[i..]) == JoinRow(all, evs[i]) + JoinRows(all, evs[i + 1..])
  {
    assert evs[i..][1..] == evs[i + 1..];
    hide JoinRow;
  }

  /** The row of one invocation, looked up in the index. */
  function IndexedRow(terminals: map<string, EventType>, ev: Event): seq<StepExecution> {
    var sid := GetOr(ev.stepId, "");
    if ev.etype.IsStepStart() && sid in terminals
    then [StepExecution(sid, ev.payload.stepType, Some(terminals[sid]))] else []
  }

  lemma IndexedRowIsJoinRow(evs: seq<Event>, ev: Event)
    ensures IndexedRow(EndsUpTo(evs), ev) == JoinRow(evs, ev)
  {
    EndsUpToMeaning(evs, GetOr(ev.stepId, ""));
    hide EndsUpTo, FirstEnd;
  }

  lemma RowMoves(steps: seq<StepExecution>, row: seq<StepExecution>, rest: seq<StepExecution>)
    ensures steps + (row + rest) == (steps + row) + rest
  {
  }

  /** First indexes the first end of each step, and then walks the starts in order, keeping those whose step has an end. */
  method GetTurnSteps(log: Log, t: int) returns (steps: seq<StepExecution>)
    ensures steps == RefTurnSteps(log, t)
  {
    var evs := Evs(OfTurn(log, t));
    var terminals := IndexTerminals(evs);
    assert evs[0..] == evs && JoinRows(evs, evs[|evs|..]) == [];
    hide EndsUpTo, FirstEnd, OfTurn, JoinRows, JoinRow, IndexedRow;
    steps := [];
    for i := 0 to |evs|
      invariant steps + JoinRows(evs, evs[i..]) == JoinRows(evs, evs)
    {
      JoinRowsStep(evs, evs, i);
      IndexedRowIsJoinRow(evs, evs[i]);
      RowMoves(steps, JoinRow(evs, evs[i]), JoinRows(evs, evs[i + 1..]));
      steps := steps + IndexedRow(terminals, evs[i]);
    }
  }

  /** Each step has at most one invocation and one end, the end comes later and in the same turn. */
  ghost predicate WellStepped(log: Log) {
    InvokedOnce(log) && EndsLast(log) && EndsAnInvocation(log) && NamelessUnended(log)
  }

  /** A start without a step id, which the scope check rules out, meets no end with the empty one. */
  ghost predicate NamelessUnended(log: Log) {
    forall i, j :: 0 <= i < |log| && 0 <= j < |log| && Nameless(log[i]) ==> !Is(log[j], StepEnds(""))
  }

  predicate Nameless(r: Record) {
    r.ev.etype.IsStepStart() && r.ev.stepId.None?
  }

  ghost predicate InvokedOnce(log: Log) {
    forall i, j, sid :: 0 <= i < j < |log| && OpensStep(log[i], sid) ==> !OpensStep(log[j], sid)
  }

  ghost predicate EndsLast(log: Log) {
    forall i, j, sid :: 0 <= i < j < |log| && Is(log[i], StepEnds(sid)) ==> !Is(log[j], StepMoves(sid))
  }

  ghost predicate EndsAnInvocation(log: Log) {
    forall j, sid :: 0 <= j < |log| && Is(log[j], StepEnds(sid)) ==>
      exists i :: 0 <= i < j && OpensStep(log[i], sid) && log[i].ev.turnId == log[j].ev.turnId
  }

  /** Before its only end, a step is open. */
  lemma EndedStepWasOpen(log: Log, e: nat, sid: string)
    requires WellStepped(log) && e < |log| && Is(log[e], StepEnds(sid))
    ensures StepOpen(log[..e], sid)
  {
    var l := log[..e];
    var i :| 0 <= i < e && OpensStep(log[i], sid);
    assert Is(l[i], StepMoves(sid));
    var last := Last(l, StepMoves(sid)).value;
    assert log[last] == l[last];
    assert !Is(log[last], StepEnds(sid));
  }

  /** On such logs every end closes its step, so the completed steps are those with an end, with that end. */
  lemma CompletedMeaning(log: Log, sid: string)
    requires WellStepped(log)
    ensures var e := Last(log, StepEnds(sid)); var done := Fold(log).completedSteps;
            if e.Some? then sid in done && done[sid].terminal == log[e.value].ev.etype else sid !in done
  {
    var e := Last(log, StepEnds(sid));
    if e.Some? {
      EndedStepWasOpen(log, e.value, sid);
      assert Closes(log, e.value, sid);
    }
    hide Fold, WellStepped, StepOpen;
    CompletedStepsMeaning(log, sid);
  }

  function EndedOnly(steps: seq<StepExecution>): seq<StepExecution> {
    if steps == [] then []
    else (if steps[0].endEvent.Some? then [steps[0]] else []) + EndedOnly(steps[1..])
  }

  lemma {:induction false} EndedOnlyAppend(a: seq<StepExecution>, b: seq<StepExecution>)
    ensures EndedOnly(a + b) == EndedOnly(a) + EndedOnly(b)
  {
    if a == [] {
      assert a + b == b;
    } else {
      var first := if a[0].endEvent.Some? then [a[0]] else [];
      assert (a + b)[0] == a[0] && (a + b)[1..] == a[1..] + b;
      EndedOnlyAppend(a[1..], b);
      assert EndedOnly(a + b) == first + EndedOnly(a[1..] + b) && EndedOnly(a) == first + EndedOnly(a[1..]);
      hide EndedOnly;
      RowMoves(first, EndedOnly(a[1..]), EndedOnly(b));
    }
  }

  lemma {:induction false} FirstEndMeaning(evs: seq<Event>, sid: string)
    ensures match FirstEnd(evs, sid)
            case Some(e) => exists j :: 0 <= j < |evs| && evs[j].stepId == Some(sid) && evs[j].etype.IsStepTerminal() && evs[j].etype == e
            case None => forall j :: 0 <= j < |evs| && evs[j].stepId == Some(sid) ==> !evs[j].etype.IsStepTerminal()
  {
    if evs != [] {
      FirstEndMeaning(evs[1..], sid);
      assert forall j :: 1 <= j < |evs| ==> evs[j] == evs[1..][j - 1];
      assert forall j :: 0 <= j < |evs[1..]| ==> evs[1..][j] == evs[j + 1];
    }
  }

  lemma OwnEventIn(log: Log, t: int, j: nat)
    requires j < |OfTurn(log, t)|
    requires InOrder(log)
    ensures exists i :: 0 <= i < |log| && log[i] == OfTurn(log, t)[j] && log[i].ev.turnId == Some(t)
  {
    OfTurnIsSubsequence(log, t);
    assert OfTurn(log, t)[j] in OfTurn(log, t);
  }

  /** The end that the join finds for an invocation of the turn is the one the projection recorded. */
  lemma EndsAgree(log: Log, t: int, i: nat, sid: string)
    requires InOrder(log) && WellStepped(log)
    requires i < |log| && OpensStep(log[i], sid) && log[i].ev.turnId == Some(t)
    ensures var done := Fold(log).completedSteps;
            FirstEnd(Evs(OfTurn(log, t)), sid) == if sid in done then Some(done[sid].terminal) else None
  {
    var own := OfTurn(log, t);
    CompletedMeaning(log, sid);
    FirstEndMeaning(Evs(own), sid);
    hide Fold, FirstEnd, OfTurn;
    if FirstEnd(Evs(own), sid).Some? {
      var j :| 0 <= j < |own| && own[j].ev.stepId == Some(sid) && own[j].ev.etype.IsStepTerminal()
               && Some(own[j].ev.etype) == FirstEnd(Evs(own), sid);
      OwnEventIn(log, t, j);
      var k :| 0 <= k < |log| && log[k] == own[j];
      assert Is(log[k], StepEnds(sid));
      OnlyEnd(log, k, sid);
    } else if Last(log, StepEnds(sid)).Some? {
      var k := Last(log, StepEnds(sid)).value;
      EndInSameTurn(log, i, k, sid);
      EndIsFound(log, t, k, sid);
    }
  }

  lemma EndIsFound(log: Log, t: int, k: nat, sid: string)
    requires InOrder(log) && k < |log| && Is(log[k], StepEnds(sid)) && log[k].ev.turnId == Some(t)
    ensures FirstEnd(Evs(OfTurn(log, t)), sid).Some?
  {
    var own := OfTurn(log, t);
    FirstEndMeaning(Evs(own), sid);
    OfTurnIsSubsequence(log, t);
    hide FirstEnd, OfTurn;
    var j :| 0 <= j < |own| && own[j] == log[k];
    assert Evs(own)[j].stepId == Some(sid) && Evs(own)[j].etype.IsStepTerminal();
  }

  lemma OnlyEnd(log: Log, k: nat, sid: string)
    requires WellStepped(log) && k < |log| && Is(log[k], StepEnds(sid))
    ensures Last(log, StepEnds(sid)) == Some(k)
  {
    hide InvokedOnce, EndsAnInvocation;
    var e := Last(log, StepEnds(sid)).value;
    assert Is(log[e], StepMoves(sid));
  }

  lemma EndInSameTurn(log: Log, i: nat, k: nat, sid: string)
    requires WellStepped(log) && i < |log| && k < |log| && OpensStep(log[i], sid) && Is(log[k], StepEnds(sid))
    ensures log[i].ev.turnId == log[k].ev.turnId
  {
    hide EndsLast;
    var s :| 0 <= s < k && OpensStep(log[s], sid) && log[s].ev.turnId == log[k].ev.turnId;
  }

  lemma StartWithoutId(log: Log, t: int, i: nat)
    requires InOrder(log) && NamelessUnended(log) && i < |log| && Nameless(log[i])
    ensures FirstEnd(Evs(OfTurn(log, t)), "").None?
  {
    var own := OfTurn(log, t);
    FirstEndMeaning(Evs(own), "");
    hide FirstEnd, OfTurn;
    forall j | 0 <= j < |own| && own[j].ev.stepId == Some("") ensures !own[j].ev.etype.IsStepTerminal() {
      OwnEventIn(log, t, j);
      var k :| 0 <= k < |log| && log[k] == own[j];
      assert !Is(log[k], StepEnds(""));
    }
  }

  /** The end that the projection recorded for the step of an invocation. */
  function Recorded(done: map<string, Completed>, ev: Event): Option<EventType> {
    if ev.stepId.Some? && ev.stepId.value in done then Some(done[ev.stepId.value].terminal) else None
  }

  /** The join finds for an invocation what the projection recorded. */
  predicate SameEnd(done: map<string, Completed>, all: seq<Event>, ev: Event) {
    ev.etype.IsStepStart() ==> FirstEnd(all, GetOr(ev.stepId, "")) == Recorded(done, ev)
  }

  lemma RowAgrees(done: map<string, Completed>, all: seq<Event>, ev: Event)
    requires SameEnd(done, all, ev)
    ensures EndedOnly(StepRow(done, ev)) == JoinRow(all, ev)
  {
    hide FirstEnd;
    var row := StepRow(done, ev);
    if row != [] {
      assert row[1..] == [];
    }
  }

  lemma {:induction false} RowsAgree(done: map<string, Completed>, all: seq<Event>, evs: seq<Event>)
    requires forall n :: 0 <= n < |evs| ==> SameEnd(done, all, evs[n])
    ensures EndedOnly(StepRows(done, evs)) == JoinRows(all, evs)
  {
    if evs != [] {
      hide SameEnd, EndedOnly, StepRow, JoinRow;
      RowAgrees(done, all, evs[0]);
      RowsAgree(done, all, evs[1..]);
      EndedOnlyAppend(StepRow(done, evs[0]), StepRows(done, evs[1..]));
    } else {
      assert StepRows(done, evs) == [];
    }
  }

  function RowsOf(rows: seq<StepExecution>, sid: string): nat {
    if rows == [] then 0 else (if rows[0].stepId == sid then 1 else 0) + RowsOf(rows[1..], sid)
  }

  lemma {:induction false} RowsOfAppend(a: seq<StepExecution>, b: seq<StepExecution>, sid: string)
    ensures RowsOf(a + b, sid) == RowsOf(a, sid) + RowsOf(b, sid)
  {
    if a == [] {
      assert a + b == b;
    } else {
      assert (a + b)[1..] == a[1..] + b;
      RowsOfAppend(a[1..], b, sid);
    }
  }

  lemma {:induction false} SomeRow(rows: seq<StepExecution>, sid: string)
    requires RowsOf(rows, sid) > 0
    ensures exists row :: row in rows && row.stepId == sid
  {
    if rows[0].stepId != sid {
      SomeRow(rows[1..], sid);
      var row :| row in rows[1..] && row.stepId == sid;
      assert row in rows;
    } else {
      assert rows[0] in rows;
    }
  }

  function Starts(evs: seq<Event>, id: Option<string>): nat {
    if evs == [] then 0
    else (if evs[0].etype.IsStepStart() && evs[0].stepId == id then 1 else 0) + Starts(evs[1..], id)
  }

  lemma {:induction false} StartIsCounted(evs: seq<Event>, n: nat)
    requires n < |evs| && evs[n].etype.IsStepStart()
    ensures Starts(evs, evs[n].stepId) > 0
  {
    if n > 0 {
      StartIsCounted(evs[1..], n - 1);
    }
  }

  lemma EndedRow(done: map<string, Completed>, ev: Event)
    ensures EndedOnly(StepRow(done, ev)) ==
            if ev.etype.IsStepStart() && Recorded(done, ev).Some?
            then [StepExecution(ev.stepId.value, ev.payload.stepType, Recorded(done, ev))] else []
  {
    var row := StepRow(done, ev);
    if row != [] {
      assert row[1..] == [];
    }
  }

  /** The projection lists every invocation of a step that it has completed, with the recorded end. */
  lemma {:induction false} EndedRows(done: map<string, Completed>, evs: seq<Event>, sid: string)
    ensures RowsOf(EndedOnly(StepRows(done, evs)), sid) == if sid in done then Starts(evs, Some(sid)) else 0
    ensures forall row :: row in EndedOnly(StepRows(done, evs)) && row.stepId == sid ==>
              sid in done && row.endEvent == Some(done[sid].terminal)
  {
    if evs != [] {
      var first, rest := EndedOnly(StepRow(done, evs[0])), EndedOnly(StepRows(done, evs[1..]));
      EndedRows(done, evs[1..], sid);
      EndedOnlyAppend(StepRow(done, evs[0]), StepRows(done, evs[1..]));
      RowsOfAppend(first, rest, sid);
      EndedRow(done, evs[0]);
      hide EndedOnly, StepRow;
    }
  }

  /** The join lists every invocation of a step that has an end in the turn, nameless ones under the empty id. */
  lemma {:induction false} JoinedRows(all: seq<Event>, evs: seq<Event>, sid: string)
    ensures RowsOf(JoinRows(all, evs), sid) ==
            if FirstEnd(all, sid).Some? then Starts(evs, Some(sid)) + (if sid == "" then Starts(evs, None) else 0) else 0
    ensures forall row :: row in JoinRows(all, evs) && row.stepId == sid ==> row.endEvent == FirstEnd(all, sid)
  {
    if evs != [] {
      hide FirstEnd;
      JoinedRows(all, evs[1..], sid);
      RowsOfAppend(JoinRow(all, evs[0]), JoinRows(all, evs[1..]), sid);
    }
  }

  /** Equal lists have equal rows invocation by invocation: count the rows of each step. */
  lemma EqualListsSameEnd(done: map<string, Completed>, all: seq<Event>, evs: seq<Event>, n: nat)
    requires EndedOnly(StepRows(done, evs)) == JoinRows(all, evs) && n < |evs|
    ensures SameEnd(done, all, evs[n])
  {
    var ev := evs[n];
    if ev.etype.IsStepStart() {
      var sid, rows := GetOr(ev.stepId, ""), JoinRows(all, evs);
      StartIsCounted(evs, n);
      EndedRows(done, evs, sid);
      JoinedRows(all, evs, sid);
      hide EndedOnly, StepRows, JoinRows, Starts, FirstEnd, RowsOf;
      if RowsOf(rows, sid) > 0 {
        SomeRow(rows, sid);
      }
    }
  }

  /** The kind of the last end that came while the step was open. */
  function ClosedAs(log: Log, sid: string): Option<EventType> {
    match LastClose(log, sid)
    case None => None
    case Some(e) => Some(log[e].ev.etype)
  }

  /** For an invocation of the turn, the first end of its step in the turn is of the kind that last closed it. */
  predicate FirstEndCloses(log: Log, t: int, ev: Event) {
    FirstEnd(Evs(OfTurn(log, t)), GetOr(ev.stepId, "")) == if ev.stepId.Some? then ClosedAs(log, ev.stepId.value) else None
  }

  lemma RecordedIsClosed(log: Log, t: int, ev: Event)
    ensures SameEnd(Fold(log).completedSteps, Evs(OfTurn(log, t)), ev)
       <==> (ev.etype.IsStepStart() ==> FirstEndCloses(log, t, ev))
  {
    if ev.stepId.Some? {
      CompletedStepsMeaning(log, ev.stepId.value);
    }
    hide Fold, FirstEnd, OfTurn, LastClose;
  }

  /**
   For every log, the projection's step list of a turn, restricted to steps that have ended, is the inner
   join over the log (same steps, same ends, same order) if and only if, for each invocation of the
   turn, the first end of its step in the turn is of the kind that last closed it in the log.
   */
  lemma TurnStepsAgreeIff(log: Log, t: int)
    requires InOrder(log)
    ensures EndedOnly(TurnSteps(Fold(log), t)) == RefTurnSteps(log, t)
       <==> forall r :: r in OfTurn(log, t) && r.ev.etype.IsStepStart() ==> FirstEndCloses(log, t, r.ev)
  {
    TurnEventsMeaning(log, t);
    var own, done := OfTurn(log, t), Fold(log).completedSteps;
    hide Fold, OfTurn, EndedOnly, StepRows, JoinRows, SameEnd, FirstEndCloses;
    if EndedOnly(TurnSteps(Fold(log), t)) == RefTurnSteps(log, t) {
      forall r | r in own && r.ev.etype.IsStepStart() ensures FirstEndCloses(log, t, r.ev) {
        var n :| 0 <= n < |own| && own[n] == r;
        EqualListsSameEnd(done, Evs(own), Evs(own), n);
        RecordedIsClosed(log, t, r.ev);
      }
    }
    if forall r :: r in own && r.ev.etype.IsStepStart() ==> FirstEndCloses(log, t, r.ev) {
      forall n | 0 <= n < |own| ensures SameEnd(done, Evs(own), Evs(own)[n]) {
        assert own[n] in own;
        RecordedIsClosed(log, t, own[n].ev);
      }
      RowsAgree(done, Evs(own), Evs(own));
    }
  }

  /** Well-stepped logs meet the condition. */
  lemma TurnStepsAgree(log: Log, t: int)
    requires InOrder(log) && WellStepped(log)
    ensures EndedOnly(TurnSteps(Fold(log), t)) == RefTurnSteps(log, t)
  {
    var own := OfTurn(log, t);
    assert NamelessUnended(log);
    hide Fold, OfTurn, FirstEnd, WellStepped, NamelessUnended;
    TurnEventsMeaning(log, t);
    forall n | 0 <= n < |own| ensures SameEnd(Fold(log).completedSteps, Evs(own), Evs(own)[n]) {
      OwnEventIn(log, t, n);
      var i :| 0 <= i < |log| && log[i] == own[n] && log[i].ev.turnId == Some(t);
      var ev := own[n].ev;
      if ev.etype.IsStepStart() {
        if ev.stepId.Some? {
          EndsAgree(log, t, i, ev.stepId.value);
        } else {
          StartWithoutId(log, t, i);
        }
      }
    }
    RowsAgree(Fold(log).completedSteps, Evs(own), Evs(own));
  }

  // ---------------------------------------------------------------- tokens

  function RefModelOf(ev: Event): string { GetOr(ev.payload.model, "unknown") }

  function UsageOrZero(ev: Event): Usage {
    GetOr(ev.payload.usage, Usage(None, None, None))
  }

  function CountCall(stats: map<string, TokenStats>, ev: Event): map<string, TokenStats> {
    if ev.etype.LlmCompleted?
    then stats[RefModelOf(ev) := AddUsage(StatsOf(stats, RefModelOf(ev)), UsageOrZero(ev))] else stats
  }

  /** The reference counts every completed call, with or without usage. */
  function RefTokens(log: Log): map<string, TokenStats> {
    if log == [] then map[] else CountCall(RefTokens(log[..|log| - 1]), log[|log| - 1].ev)
  }

  method GetTokenUsageStats(log: Log) returns (stats: map<string, TokenStats>)
    ensures stats == RefTokens(log)
  {
    stats := map[];
    for i := 0 to |log|
      invariant stats == RefTokens(log[..i])
    {
      assert log[..i + 1][..i] == log[..i];
      var ev := log[i].ev;
      if ev.etype.LlmCompleted? {
        var m := RefModelOf(ev);
        var u := UsageOrZero(ev);
        var old_ := StatsOf(stats, m);
        stats := stats[m := TokenStats(old_.calls + 1, old_.prompt + GetOr(u.prompt, 0),
                                       old_.completion + GetOr(u.completion, 0), old_.total + GetOr(u.total, 0))];
      }
    }
    assert log[..|log|] == log;
  }

  const NO_STATS: TokenStats := TokenStats(0, 0, 0, 0)

  function Plus(a: TokenStats, b: TokenStats): TokenStats {
    TokenStats(a.calls + b.calls, a.prompt + b.prompt, a.completion + b.completion, a.total + b.total)
  }

  predicate CallOf(ev: Event, m: Option<string>) { ev.etype.LlmCompleted? && ev.payload.model == m }

  /** All completed calls whose payload names this model, or none, with what usage they report. */
  function CallStats(log: Log, m: Option<string>): TokenStats {
    if log == [] then NO_STATS
    else CallsAfter(CallStats(log[..|log| - 1], m), log[|log| - 1].ev, m)
  }

  /** Those of them that report a usage. */
  function UsedStats(log: Log, m: Option<string>): TokenStats {
    if log == [] then NO_STATS
    else UsedAfter(UsedStats(log[..|log| - 1], m), log[|log| - 1].ev, m)
  }

  /** How many of them report none. */
  function CallsWithoutUsage(log: Log, m: Option<string>): nat {
    if log == [] then 0
    else
      var n, ev := CallsWithoutUsage(log[..|log| - 1], m), log[|log| - 1].ev;
      if CallOf(ev, m) && ev.payload.usage.None? then n + 1 else n
  }

  /** Same sums, and so many more calls on the reference side. */
  predicate SameSums(p: TokenStats, r: TokenStats, without: nat) {
    && p.prompt == r.prompt && p.completion == r.completion && p.total == r.total
    && r.calls == p.calls + without
  }

  lemma StatsAfter(tokens: map<string, TokenStats>, ev: Event, m: string)
    ensures StatsOf(TokensAfter(tokens, ev), m) ==
            if ev.etype.LlmCompleted? && ev.payload.usage.Some? && ModelOf(ev) == m
            then AddUsage(StatsOf(tokens, m), ev.payload.usage.value) else StatsOf(tokens, m)
    ensures StatsOf(CountCall(tokens, ev), m) ==
            if ev.etype.LlmCompleted? && RefModelOf(ev) == m
            then AddUsage(StatsOf(tokens, m), UsageOrZero(ev)) else StatsOf(tokens, m)
  {
    hide AddUsage;
  }

  /** The calls of a named model, and with them those without a model where the default is this name. */
  function Booked(named: TokenStats, nameless: TokenStats, isDefault: bool): TokenStats {
    if isDefault then Plus(named, nameless) else named
  }

  function UsedAfter(s: TokenStats, ev: Event, m: Option<string>): TokenStats {
    if CallOf(ev, m) && ev.payload.usage.Some? then AddUsage(s, ev.payload.usage.value) else s
  }

  function CallsAfter(s: TokenStats, ev: Event, m: Option<string>): TokenStats {
    if CallOf(ev, m) then AddUsage(s, UsageOrZero(ev)) else s
  }

  lemma BookUsage(named: TokenStats, nameless: TokenStats, u: Usage)
    ensures AddUsage(Booked(named, nameless, true), u) == Booked(AddUsage(named, u), nameless, true)
    ensures AddUsage(Booked(named, nameless, true), u) == Booked(named, AddUsage(nameless, u), true)
  {
  }

  lemma BookedAfter(tokens: map<string, TokenStats>, ev: Event, m: string, a: TokenStats, b: TokenStats)
    ensures StatsOf(tokens, m) == Booked(a, b, m == "?") ==>
            StatsOf(TokensAfter(tokens, ev), m) == Booked(UsedAfter(a, ev, Some(m)), UsedAfter(b, ev, None), m == "?")
    ensures StatsOf(tokens, m) == Booked(a, b, m == "unknown") ==>
            StatsOf(CountCall(tokens, ev), m) == Booked(CallsAfter(a, ev, Some(m)), CallsAfter(b, ev, None), m == "unknown")
  {
    StatsAfter(tokens, ev, m);
    BookUsage(a, b, UsageOrZero(ev));
    hide AddUsage, Plus, StatsOf, TokensAfter, CountCall;
  }

  lemma {:induction false} FoldTokens(log: Log, m: string)
    ensures StatsOf(Fold(log).tokens, m) == Booked(UsedStats(log, Some(m)), UsedStats(log, None), m == "?")
  {
    if log != [] {
      var l, ev := log[..|log| - 1], log[|log| - 1].ev;
      FoldTokens(l, m);
      BookedAfter(Fold(l).tokens, ev, m, UsedStats(l, Some(m)), UsedStats(l, None));
      assert Fold(log).tokens == TokensAfter(Fold(l).tokens, ev);
      hide Fold, UsedAfter, Booked, StatsOf, TokensAfter;
    }
  }

  lemma {:induction false} RefTokensByModel(log: Log, m: string)
    ensures StatsOf(RefTokens(log), m) == Booked(CallStats(log, Some(m)), CallStats(log, None), m == "unknown")
  {
    if log != [] {
      var l, ev := log[..|log| - 1], log[|log| - 1].ev;
      RefTokensByModel(l, m);
      BookedAfter(RefTokens(l), ev, m, CallStats(l, Some(m)), CallStats(l, None));
      hide CallsAfter, Booked, StatsOf, CountCall;
    }
  }

  lemma {:induction false} UsedOfCalls(log: Log, m: Option<string>)
    ensures SameSums(UsedStats(log, m), CallStats(log, m), CallsWithoutUsage(log, m))
  {
    if log != [] {
      UsedOfCalls(log[..|log| - 1], m);
    }
  }

  /**
   For every log and model: the projection counts the calls with usage and books those without a model
   under "?"; the reference counts all calls and books those without a model under "unknown". Per named
   model, and for the calls without one, the sums are the same and the counts differ by the calls
   without usage.
   */
  lemma TokensByModel(log: Log, m: string)
    ensures StatsOf(Fold(log).tokens, m) ==
            Booked(UsedStats(log, Some(m)), UsedStats(log, None), m == "?")
    ensures StatsOf(RefTokens(log), m) ==
            Booked(CallStats(log, Some(m)), CallStats(log, None), m == "unknown")
    ensures forall of :: SameSums(UsedStats(log, of), CallStats(log, of), CallsWithoutUsage(log, of))
  {
    FoldTokens(log, m);
    RefTokensByModel(log, m);
    forall of ensures SameSums(UsedStats(log, of), CallStats(log, of), CallsWithoutUsage(log, of)) {
      UsedOfCalls(log, of);
    }
  }

  ghost predicate SameStats(a: map<string, TokenStats>, b: map<string, TokenStats>) {
    forall m: string :: StatsOf(a, m) == StatsOf(b, m)
  }

  /** Every completed call names its model and reports a usage. */
  predicate Reported(log: Log) {
    forall i :: 0 <= i < |log| && log[i].ev.etype.LlmCompleted? ==>
      log[i].ev.payload.model.Some? && log[i].ev.payload.usage.Some?
  }

  lemma {:induction false} NoCalls(log: Log, m: Option<string>)
    ensures UsedStats(log, m).calls >= 0 && CallStats(log, m).calls >= 0
    ensures CallStats(log, m).calls == 0 <==> forall i :: 0 <= i < |log| ==> !CallOf(log[i].ev, m)
    ensures CallStats(log, m).calls == 0 ==> CallStats(log, m) == NO_STATS
  {
    if log != [] {
      var l, r := log[..|log| - 1], log[|log| - 1];
      NoCalls(l, m);
      assert log == l + [r];
      hide CallOf;
    }
  }

  lemma {:induction false} NoneWithoutUsage(log: Log, m: Option<string>)
    ensures CallsWithoutUsage(log, m) == 0 <==>
            forall i :: 0 <= i < |log| && CallOf(log[i].ev, m) ==> log[i].ev.payload.usage.Some?
  {
    if log != [] {
      var l, r := log[..|log| - 1], log[|log| - 1];
      NoneWithoutUsage(l, m);
      assert log == l + [r];
      hide CallOf;
    }
  }

  lemma NamelessCallsDiffer(log: Log)
    requires StatsOf(Fold(log).tokens, "unknown") == StatsOf(RefTokens(log), "unknown")
    ensures CallStats(log, None).calls == 0
  {
    FoldTokens(log, "unknown");
    RefTokensByModel(log, "unknown");
    UsedOfCalls(log, Some("unknown"));
    NoCalls(log, None);
    hide Fold, RefTokens, StatsOf, CallStats, UsedStats, CallsWithoutUsage;
  }

  lemma UnreportedCallsDiffer(log: Log, m: string)
    requires StatsOf(Fold(log).tokens, m) == StatsOf(RefTokens(log), m) && CallStats(log, None).calls == 0
    ensures CallsWithoutUsage(log, Some(m)) == 0
  {
    FoldTokens(log, m);
    RefTokensByModel(log, m);
    UsedOfCalls(log, Some(m));
    UsedOfCalls(log, None);
    NoCalls(log, None);
    hide Fold, RefTokens, StatsOf, CallStats, UsedStats, CallsWithoutUsage;
  }

  lemma SameStatsReported(log: Log)
    requires SameStats(Fold(log).tokens, RefTokens(log))
    ensures Reported(log)
  {
    var p, r := Fold(log).tokens, RefTokens(log);
    assert StatsOf(p, "unknown") == StatsOf(r, "unknown");
    hide Fold, RefTokens, StatsOf, CallStats, CallsWithoutUsage;
    NamelessCallsDiffer(log);
    NoCalls(log, None);
    forall i | 0 <= i < |log| && log[i].ev.etype.LlmCompleted?
      ensures log[i].ev.payload.model.Some? && log[i].ev.payload.usage.Some?
    {
      assert !CallOf(log[i].ev, None);
      var m := log[i].ev.payload.model.value;
      assert StatsOf(p, m) == StatsOf(r, m);
      UnreportedCallsDiffer(log, m);
      NoneWithoutUsage(log, Some(m));
      assert CallOf(log[i].ev, Some(m));
    }
  }

  lemma ReportedSameStats(log: Log, m: string)
    requires Reported(log)
    ensures StatsOf(Fold(log).tokens, m) == StatsOf(RefTokens(log), m)
  {
    FoldTokens(log, m);
    RefTokensByModel(log, m);
    UsedOfCalls(log, Some(m));
    UsedOfCalls(log, None);
    NoCalls(log, None);
    NoneWithoutUsage(log, Some(m));
    NoneWithoutUsage(log, None);
    hide Fold, RefTokens, StatsOf, CallStats, UsedStats, CallsWithoutUsage;
  }

  /**
   The two stores report the same token statistics for every model if and only if every completed call
   names its model and reports a usage: a call without usage is counted by the reference only, and a
   call without model goes to different models.
   */
  lemma TokensAgreeIff(log: Log)
    ensures SameStats(Fold(log).tokens, RefTokens(log)) <==> Reported(log)
  {
    hide Fold, RefTokens, StatsOf;
    if Reported(log) {
      forall m: string ensures StatsOf(Fold(log).tokens, m) == StatsOf(RefTokens(log), m) {
        ReportedSameStats(log, m);
      }
    }
    if SameStats(Fold(log).tokens, RefTokens(log)) {
      SameStatsReported(log);
    }
  }

  // ---------------------------------------------------------------- gaps

  /** The missing successor of each record before the last. */
  function GapsUpTo(log: Log, k: nat): seq<int>
    requires k <= |log|
  {
    if k == 0 then []
    else
      var rest, n := GapsUpTo(log, k - 1), log[k - 1].seqNo;
      if n < log[|log| - 1].seqNo && !HasSeq(log, n + 1) then rest + [n + 1] else rest
  }

  method DetectSeqGaps(log: Log) returns (gaps: seq<int>)
    ensures gaps == GapsUpTo(log, |log|)
  {
    gaps := [];
    var maxSeq := if log == [] then 0 else log[|log| - 1].seqNo;
    for k := 0 to |log|
      invariant gaps == GapsUpTo(log, k)
    {
      var n := log[k].seqNo;
      if n < maxSeq && !HasSeq(log, n + 1) {
        gaps := gaps + [n + 1];
      }
    }
  }

  lemma {:induction false} GapsMembers(log: Log, k: nat, g: int)
    requires k <= |log|
    ensures g in GapsUpTo(log, k) <==>
            !HasSeq(log, g) && exists i :: 0 <= i < k && log[i].seqNo == g - 1 && g - 1 < log[|log| - 1].seqNo
  {
    if k > 0 {
      GapsMembers(log, k - 1, g);
    }
  }

  /** Least and greatest number of the turn's records; zero when it has none. */
  function TurnLow(log: Log, t: int): int {
    var own := OfTurn(log, t);
    if own == [] then 0 else own[0].seqNo
  }

  function TurnHigh(log: Log, t: int): int {
    var own := OfTurn(log, t);
    if own == [] then 0 else own[|own| - 1].seqNo
  }

  /** The bounds of a turn are numbers of its own records, and all its records lie between them. */
  lemma TurnBounds(log: Log, t: int)
    requires InOrder(log) && OfTurn(log, t) != []
    ensures exists i, j :: 0 <= i < |log| && 0 <= j < |log| && log[i].ev.turnId == Some(t) == log[j].ev.turnId
                           && log[i].seqNo == TurnLow(log, t) && log[j].seqNo == TurnHigh(log, t)
    ensures forall i :: 0 <= i < |log| && log[i].ev.turnId == Some(t) ==> TurnLow(log, t) <= log[i].seqNo <= TurnHigh(log, t)
  {
    var own := OfTurn(log, t);
    OfTurnIsSubsequence(log, t);
    OwnEventIn(log, t, 0);
    OwnEventIn(log, t, |own| - 1);
    hide OfTurn;
    forall i | 0 <= i < |log| && log[i].ev.turnId == Some(t) ensures own[0].seqNo <= log[i].seqNo <= own[|own| - 1].seqNo {
      OfTurnAll(log, t, i);
      var j :| 0 <= j < |own| && own[j] == log[i];
    }
  }

  predicate IsTurnSeqContinuous(log: Log, t: int) {
    forall g | g in GapsUpTo(log, |log|) :: !(TurnLow(log, t) <= g <= TurnHigh(log, t))
  }

  /** The nearest record at or below a number. */
  lemma {:induction false} NearestBelow(log: Log, m: int, low: nat) returns (i: nat)
    requires InOrder(log) && low < |log| && log[low].seqNo <= m
    ensures low <= i < |log| && log[i].seqNo <= m && (i + 1 < |log| ==> m < log[i + 1].seqNo)
    decreases |log| - low
  {
    if low + 1 < |log| && log[low + 1].seqNo <= m {
      i := NearestBelow(log, m, low + 1);
    } else {
      i := low;
    }
  }

  /**
   Although only the first missing number of each hole is reported, the check accepts a turn if and
   only if every number between its first and its last record is present.
   */
  lemma ContinuousIffNothingMissing(log: Log, t: int)
    requires InOrder(log)
    ensures IsTurnSeqContinuous(log, t)
       <==> OfTurn(log, t) == [] || forall m :: TurnLow(log, t) <= m <= TurnHigh(log, t) ==> HasSeq(log, m)
  {
    var own := OfTurn(log, t);
    var gaps := GapsUpTo(log, |log|);
    OfTurnIsSubsequence(log, t);
    hide OfTurn, GapsUpTo;
    if own == [] {
      forall g | g in gaps ensures !(TurnLow(log, t) <= g <= TurnHigh(log, t)) {
        GapsMembers(log, |log|, g);
      }
    } else {
      assert own[0] in own && own[|own| - 1] in own;
      var a :| 0 <= a < |log| && log[a] == own[0];
      var b :| 0 <= b < |log| && log[b] == own[|own| - 1];
      if forall m :: TurnLow(log, t) <= m <= TurnHigh(log, t) ==> HasSeq(log, m) {
        forall g | g in gaps ensures !(TurnLow(log, t) <= g <= TurnHigh(log, t)) {
          GapsMembers(log, |log|, g);
        }
      }
      if IsTurnSeqContinuous(log, t) {
        forall m | TurnLow(log, t) <= m <= TurnHigh(log, t) ensures HasSeq(log, m) {
          if !HasSeq(log, m) {
            HoleIsReported(log, a, b, m);
          }
        }
      }
    }
  }

  lemma HoleIsReported(log: Log, a: nat, b: nat, m: int)
    requires InOrder(log) && a < |log| && b < |log| && log[a].seqNo <= m <= log[b].seqNo && !HasSeq(log, m)
    ensures exists g :: g in GapsUpTo(log, |log|) && log[a].seqNo <= g <= m
  {
    var i := NearestBelow(log, m, a);
    var g := log[i].seqNo + 1;
    assert log[a].seqNo <= log[i].seqNo < m;
    forall j | 0 <= j < |log| ensures log[j].seqNo != g {
      if j > i {
        assert log[j].seqNo >= log[i + 1].seqNo;
      } else {
        assert log[j].seqNo <= log[i].seqNo;
      }
    }
    GapsMembers(log, |log|, g);
  }

  // ---------------------------------------------------------------- logs on which the stores disagree

  function TurnRecord(n: int, t: EventType, turn: int): Record {
    Record(n, Event(t, Some(turn), None, EMPTY_PAYLOAD))
  }

  function TaskRecord(n: int, t: EventType): Record {
    Record(n, Event(t, None, None, EMPTY_PAYLOAD))
  }

  function StepRecord(n: int, t: EventType, turn: int, sid: string): Record {
    Record(n, Event(t, Some(turn), Some(sid), EMPTY_PAYLOAD))
  }

  /** A created and ready task starts its first turn: ready on one side, executing on the other. */
  lemma ReadyStatesDisagree(turn: int)
    ensures var log := [TaskRecord(1, TaskCreated), TaskRecord(2, TaskReady), TurnRecord(3, TurnStarted, turn)];
            InOrder(log) && DeriveTaskState(log) == Ready && Fold(log).state == Executing
  {
    var log := [TaskRecord(1, TaskCreated), TaskRecord(2, TaskReady), TurnRecord(3, TurnStarted, turn)];
    assert Is(log[1], TaskEvents) && !Is(log[2], TaskEvents);
    assert Last(log, TaskEvents) == Some(1);
    StateMeaning(log);
    assert StartedAfter(log, 1);
    hide Fold, MaxStartedSeq;
  }

  /** A turn that is started twice and never ends has two rows in the scan, where the projection has one per turn. */
  lemma RepeatedStartsDisagree(turn: int)
    ensures var log := [TurnRecord(1, TurnStarted, turn), TurnRecord(2, TurnStarted, turn)];
            RefRows(log, 2) == [RefRow(log[0], turn), RefRow(log[1], turn)] && turn in Fold(log).activeTurns
  {
    var log := [TurnRecord(1, TurnStarted, turn), TurnRecord(2, TurnStarted, turn)];
    ActiveTurnsMeaning(log, turn);
    hide Fold, RefRow;
    assert Is(log[1], TurnMoves(turn)) && !HasEnd(log, turn);
    assert RefRows(log, 0) == [];
    assert RefRows(log, 1) == [RefRow(log[0], turn)];
  }

  /** A turn that is started again after its end is incomplete for the projection only. */
  lemma RestartedTurnsDisagree(turn: int)
    ensures var log := [TurnRecord(1, TurnStarted, turn), TurnRecord(2, TurnFailed, turn), TurnRecord(3, TurnStarted, turn)];
            turn in Fold(log).activeTurns && !RefIncomplete(log, turn)
  {
    var log := [TurnRecord(1, TurnStarted, turn), TurnRecord(2, TurnFailed, turn), TurnRecord(3, TurnStarted, turn)];
    ActiveTurnsMeaning(log, turn);
    hide Fold;
    assert Is(log[2], TurnMoves(turn));
    assert EndsTurn(log[1], turn);
  }

  lemma StrayEndIsKept(r: Record, e: Record, t: int, sid: string)
    requires r.ev.turnId == Some(t) && e.ev.turnId != Some(t) && r.ev.stepId == Some(sid) && e.ev.stepId == Some(sid)
    requires r.ev.etype.ToolInvoked? && e.ev.etype.ToolCompleted?
    ensures OfTurn([r, e], t) == [r]
    ensures var done := Fold([r, e]).completedSteps; sid in done && done[sid].terminal == ToolCompleted
  {
    assert [r, e][..1] == [r];
    assert OfTurn([r], t) == [r];
    assert Fold([r]).activeSteps[sid] == r;
  }

  lemma OneRow(done: map<string, Completed>, ev: Event)
    ensures StepRows(done, [ev]) == StepRow(done, ev) && JoinRows([ev], [ev]) == JoinRow([ev], ev)
  {
    assert [ev][1..] == [];
    hide StepRow, JoinRow;
  }

  /** A tool call that ends under another turn has ended for the projection only. */
  lemma StrayEndsDisagree(t: int, u: int, sid: string)
    requires t != u
    ensures var log := [StepRecord(1, ToolInvoked, t, sid), StepRecord(2, ToolCompleted, u, sid)];
            EndedOnly(TurnSteps(Fold(log), t)) == [StepExecution(sid, None, Some(ToolCompleted))] && RefTurnSteps(log, t) == []
  {
    var r, e := StepRecord(1, ToolInvoked, t, sid), StepRecord(2, ToolCompleted, u, sid);
    TurnEventsMeaning([r, e], t);
    StrayEndIsKept(r, e, t, sid);
    hide Fold, OfTurn;
    OneRow(Fold([r, e]).completedSteps, r.ev);
    EndedRow(Fold([r, e]).completedSteps, r.ev);
    assert Evs([r]) == [r.ev] && FirstEnd([r.ev], sid).None?;
    hide EndedOnly, StepRow, StepRows, JoinRows, FirstEnd;
  }

  /** A call without usage, or without a model, is enough for the token statistics to differ. */
  lemma UnreportedCallsDisagree(turn: int, sid: string)
    ensures !SameStats(Fold([StepRecord(1, LlmCompleted, turn, sid)]).tokens, RefTokens([StepRecord(1, LlmCompleted, turn, sid)]))
  {
    var log := [StepRecord(1, LlmCompleted, turn, sid)];
    TokensAgreeIff(log);
    hide SameStats, Fold, RefTokens;
    assert log[0].ev.etype.LlmCompleted?;
  }
}
