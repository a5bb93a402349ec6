/**
 The event stream of one turn as an SSE client sees it: attach to the live
 tail, replay the committed history, then follow the tail, dropping what the
 replay already sent.
 */
module StreamFanIn {
  import opened Wrappers
  import opened Events
  import Projection

  predicate IsTerminalType(t: EventType) { t.IsTurnTerminal() }

  /** The event types asked for when subscribing; `turn_pending` is not among them. */
  predicate Subscribed(t: EventType) {
    t.TurnStarted? || t.IsTurnTerminal() || t.IsStepStart() || t.IsStepTerminal()
  }

  // ---------------------------------------------------------------- replay

  function SubscribedOnly(s: Log): Log {
    if s == [] then []
    else
      var rest := SubscribedOnly(s[..|s| - 1]);
      var r := s[|s| - 1];
      if Subscribed(r.ev.etype) then rest + [r] else rest
  }

  function InsertBySeq(r: Record, s: Log): Log {
    if s == [] || r.seqNo <= s[0].seqNo then [r] + s else [s[0]] + InsertBySeq(r, s[1..])
  }

  /** The library's stable sort by sequence number. */
  function SortBySeq(s: Log): Log {
    if s == [] then [] else InsertBySeq(s[0], SortBySeq(s[1..]))
  }

  predicate HasTerminal(s: Log) {
    s != [] && (IsTerminalType(s[0].ev.etype) || HasTerminal(s[1..]))
  }

  lemma {:induction false} HasTerminalAppend(x: Log, y: Log)
    ensures HasTerminal(x + y) <==> HasTerminal(x) || HasTerminal(y)
  {
    if x == [] {
      assert x + y == y;
    } else {
      assert (x + y)[1..] == x[1..] + y;
      HasTerminalAppend(x[1..], y);
    }
  }

  /** Everything up to and including the first terminal event. */
  function ThroughTerminal(s: Log): Log {
    if s == [] then []
    else if IsTerminalType(s[0].ev.etype) then [s[0]]
    else [s[0]] + ThroughTerminal(s[1..])
  }

  function MaxSeq(s: Log): int {
    if s == [] then 0
    else
      var m := MaxSeq(s[..|s| - 1]);
      if s[|s| - 1].seqNo > m then s[|s| - 1].seqNo else m
  }

  datatype ReplayPlan = ReplayPlan(events: Log, hitTerminal: bool, lastSeq: int)

  function Plan(history: Log, turn: int): ReplayPlan {
    var events := ThroughTerminal(SortBySeq(OfTurn(history, turn)));
    ReplayPlan(events, HasTerminal(events), MaxSeq(events))
  }

  lemma {:induction false} ThroughTerminalStep(done: Log, r: Record, rest: Log)
    requires !HasTerminal(done)
    ensures ThroughTerminal(done) == done
    ensures ThroughTerminal(done + [r] + rest) == if IsTerminalType(r.ev.etype) then done + [r] else done + [r] + ThroughTerminal(rest)
  {
    if done == [] {
      assert done + [r] + rest == [r] + rest;
    } else {
      ThroughTerminalStep(done[1..], r, rest);
      assert (done + [r] + rest)[1..] == done[1..] + [r] + rest;
    }
  }

  lemma HasTerminalOne(r: Record)
    ensures HasTerminal([r]) <==> IsTerminalType(r.ev.etype)
  {
  }

  /** Where the replay loop stands after `i` of the turn's records. */
  ghost predicate ReplayedTo(s: Log, i: nat, plan: ReplayPlan) {
    && i <= |s|
    && plan.events == s[..i]
    && plan.hitTerminal == HasTerminal(plan.events)
    && plan.lastSeq == MaxSeq(plan.events)
    && ThroughTerminal(s) == if plan.hitTerminal then plan.events else plan.events + ThroughTerminal(s[i..])
  }

  lemma ReplayStart(s: Log)
    ensures ReplayedTo(s, 0, ReplayPlan([], false, 0))
  {
    assert [] + ThroughTerminal(s) == ThroughTerminal(s);
  }

  lemma ReplayStep(s: Log, i: nat, plan: ReplayPlan)
    requires i < |s| && ReplayedTo(s, i, plan) && !plan.hitTerminal
    ensures var r := s[i];
            var lastSeq := if r.seqNo > plan.lastSeq then r.seqNo else plan.lastSeq;
            ReplayedTo(s, i + 1, ReplayPlan(plan.events + [r], IsTerminalType(r.ev.etype), lastSeq))
  {
    hide HasTerminal, ThroughTerminal, IsTerminalType, MaxSeq;
    var done, r := s[..i], s[i];
    Pivot(s, i);
    MaxSeqSnoc(done, r);
    HasTerminalOne(r);
    HasTerminalAppend(done, [r]);
    ThroughTerminalStep(done, r, s[i + 1..]);
  }

  lemma Pivot(s: Log, i: nat)
    requires i < |s|
    ensures s == s[..i] + [s[i]] + s[i + 1..]
    ensures s[..i + 1] == s[..i] + [s[i]]
  {
  }

  lemma MaxSeqSnoc(s: Log, r: Record)
    ensures MaxSeq(s + [r]) == if r.seqNo > MaxSeq(s) then r.seqNo else MaxSeq(s)
  {
    assert (s + [r])[..|s|] == s;
  }

  lemma ReplayEnd(s: Log, i: nat, plan: ReplayPlan)
    requires ReplayedTo(s, i, plan) && (plan.hitTerminal || i == |s|)
    ensures plan == ReplayPlan(ThroughTerminal(s), HasTerminal(ThroughTerminal(s)), MaxSeq(ThroughTerminal(s)))
  {
    if i == |s| {
      assert s[i..] == [] && plan.events + [] == plan.events;
    }
  }

  method PlanHistoryReplay(history: Log, turn: int) returns (plan: ReplayPlan)
    ensures plan == Plan(history, turn)
  {
    hide ReplayedTo, IsTerminalType, ThroughTerminal, HasTerminal, MaxSeq, SortBySeq, OfTurn;
    var matching := SortBySeq(OfTurn(history, turn));
    var events: Log, hitTerminal, lastSeq := [], false, 0;
    var i := 0;
    ReplayStart(matching);
    while i < |matching| && !hitTerminal
      invariant 0 <= i <= |matching|
      invariant ReplayedTo(matching, i, ReplayPlan(events, hitTerminal, lastSeq))
    {
      var rec := matching[i];
      ReplayStep(matching, i, ReplayPlan(events, hitTerminal, lastSeq));
      if rec.seqNo > lastSeq {
        lastSeq := rec.seqNo;
      }
      events := events + [rec];
      if IsTerminalType(rec.ev.etype) {
        hitTerminal := true;
      }
      i := i + 1;
    }
    plan := ReplayPlan(events, hitTerminal, lastSeq);
    ReplayEnd(matching, i, plan);
  }

  /** Scanning may return the records in any order: the replay plan depends on the log alone. */
  lemma PlanOfScan(history: Log, log: Log, turn: int)
    requires InOrder(log) && multiset(history) == multiset(log)
    ensures Plan(history, turn) == Plan(log, turn)
    ensures Plan(log, turn).events == ThroughTerminal(OfTurn(log, turn))
  {
    OfTurnMultiset(history, log, turn);
    OfTurnInOrder(log, turn);
    SortUnique(OfTurn(history, turn), OfTurn(log, turn));
    SortUnique(OfTurn(log, turn), OfTurn(log, turn));
  }

  predicate Ascending(s: Log) {
    forall i, j :: 0 <= i < j < |s| ==> s[i].seqNo < s[j].seqNo
  }

  lemma {:induction false} OfTurnInOrder(log: Log, turn: int)
    requires InOrder(log)
    ensures Ascending(OfTurn(log, turn))
    ensures forall r | r in OfTurn(log, turn) :: r in log && r.ev.turnId == Some(turn)
  {
    if log != [] {
      var l := log[..|log| - 1];
      OfTurnInOrder(l, turn);
      forall r | r in OfTurn(l, turn) ensures r.seqNo < log[|log| - 1].seqNo {
        var i :| 0 <= i < |l| && l[i] == r;
      }
    }
  }

  lemma {:induction false} OfTurnCount(s: Log, turn: int, r: Record)
    ensures multiset(OfTurn(s, turn))[r] == if r.ev.turnId == Some(turn) then multiset(s)[r] else 0
  {
    if s != [] {
      OfTurnCount(s[..|s| - 1], turn, r);
      assert s == s[..|s| - 1] + [s[|s| - 1]];
    }
  }

  lemma OfTurnMultiset(s: Log, t: Log, turn: int)
    requires multiset(s) == multiset(t)
    ensures multiset(OfTurn(s, turn)) == multiset(OfTurn(t, turn))
  {
    forall r: Record ensures multiset(OfTurn(s, turn))[r] == multiset(OfTurn(t, turn))[r] {
      OfTurnCount(s, turn, r);
      OfTurnCount(t, turn, r);
    }
  }

  lemma {:induction false} InsertMultiset(r: Record, s: Log)
    ensures multiset(InsertBySeq(r, s)) == multiset(s) + multiset{r}
  {
    if s == [] || r.seqNo <= s[0].seqNo {
    } else {
      InsertMultiset(r, s[1..]);
      assert s == [s[0]] + s[1..];
    }
  }

  lemma {:induction false} SortMultiset(s: Log)
    ensures multiset(SortBySeq(s)) == multiset(s)
  {
    if s != [] {
      SortMultiset(s[1..]);
      InsertMultiset(s[0], SortBySeq(s[1..]));
      assert s == [s[0]] + s[1..];
    }
  }

  /** Sorting a permutation of an ascending list gives that list. */
  lemma {:induction false} SortUnique(s: Log, sorted: Log)
    requires multiset(s) == multiset(sorted) && Ascending(sorted)
    ensures SortBySeq(s) == sorted
  {
    SortMultiset(s);
    SortNonDescending(s);
    SortedEqual(SortBySeq(s), sorted);
  }

  predicate NonDescending(s: Log) {
    forall i, j :: 0 <= i < j < |s| ==> s[i].seqNo <= s[j].seqNo
  }

  lemma {:induction false} InsertNonDescending(r: Record, s: Log)
    requires NonDescending(s)
    ensures NonDescending(InsertBySeq(r, s))
  {
    if s == [] || r.seqNo <= s[0].seqNo {
    } else {
      InsertNonDescending(r, s[1..]);
      InsertMultiset(r, s[1..]);
      var t := InsertBySeq(r, s[1..]);
      forall i | 0 <= i < |t| ensures s[0].seqNo <= t[i].seqNo {
        assert t[i] in multiset(t);
        if t[i] != r {
          assert t[i] in multiset(s[1..]);
        }
      }
    }
  }

  lemma {:induction false} SortNonDescending(s: Log)
    ensures NonDescending(SortBySeq(s))
  {
    if s != [] {
      SortNonDescending(s[1..]);
      InsertNonDescending(s[0], SortBySeq(s[1..]));
    }
  }

  lemma {:induction false} SortedEqual(s: Log, t: Log)
    requires multiset(s) == multiset(t) && NonDescending(s) && Ascending(t)
    ensures s == t
  {
    if s == [] || t == [] {
      assert |multiset(s)| == |s| && |multiset(t)| == |t|;
    } else {
      SortedHeads(s, t);
      TailMultiset(s);
      TailMultiset(t);
      SortedEqual(s[1..], t[1..]);
    }
  }

  lemma TailMultiset(s: Log)
    requires s != []
    ensures multiset(s[1..]) == multiset(s) - multiset{s[0]}
  {
    assert s == [s[0]] + s[1..];
  }

  lemma SortedHeads(s: Log, t: Log)
    requires s != [] && t != []
    requires multiset(s) == multiset(t) && NonDescending(s) && Ascending(t)
    ensures s[0] == t[0]
  {
    assert s[0] in multiset(t) && t[0] in multiset(s);
    var i :| 0 <= i < |t| && t[i] == s[0];
    var j :| 0 <= j < |s| && s[j] == t[0];
  }

  // ---------------------------------------------------------------- the protocol

  datatype Phase = Idle | Attached | Live | Done

  /**
   One client of one turn next to the growing log. `cursor` is the position of the live tail in the
   log; `start` is the position from which the tail is the client's only source, and `base` the part
   of the turn that lies before it and was replayed.
   */
  datatype World = World(log: Log, phase: Phase, attachedAt: nat, replayed: bool, start: nat, base: Log,
                         cursor: nat, lastSeq: int, delivered: Log)

  /** Commits interleave freely with the client's own steps. */
  datatype Action = Commit(ev: Event) | Attach | Scan(history: Log) | ScanFails | Tail

  function Initial(log: Log): World {
    World(log, Idle, 0, false, 0, [], 0, 0, [])
  }

  predicate ShouldEmitLive(seqNo: int, lastSeq: int) { seqNo > lastSeq }

  function TailStep(w: World, turn: int): World
    requires w.cursor < |w.log|
  {
    var r := w.log[w.cursor];
    var w' := w.(cursor := w.cursor + 1);
    if !Subscribed(r.ev.etype) then w'
    else if !ShouldEmitLive(r.seqNo, w.lastSeq) then w'
    else if r.ev.turnId != Some(turn) then w'
    else w'.(delivered := w.delivered + [r], phase := if IsTerminalType(r.ev.etype) then Done else Live)
  }

  /** An action that is not enabled changes nothing. */
  function Step(w: World, a: Action, turn: int): World {
    match a
    case Commit(ev) => w.(log := Append(w.log, ev))
    case Attach =>
      if w.phase.Idle? then w.(phase := Attached, attachedAt := |w.log|, cursor := |w.log|) else w
    case Scan(history) =>
      if w.phase.Attached? && multiset(history) == multiset(w.log) then
        var plan := Plan(history, turn);
        w.(phase := if plan.hitTerminal then Done else Live, replayed := true, start := |w.log|, base := OfTurn(w.log, turn),
           lastSeq := plan.lastSeq, delivered := plan.events)
      else w
    case ScanFails =>
      if w.phase.Attached? then w.(phase := Live, start := w.attachedAt) else w
    case Tail =>
      if w.phase.Live? && w.cursor < |w.log| then TailStep(w, turn) else w
  }

  function Run(log: Log, actions: seq<Action>, turn: int): World {
    if actions == [] then Initial(log)
    else Step(Run(log, actions[..|actions| - 1], turn), actions[|actions| - 1], turn)
  }

  /** The events of the turn that the live tail carries. */
  function Own(s: Log, turn: int): Log {
    SubscribedOnly(OfTurn(s, turn))
  }

  /** The turn's events that can reach this client. */
  function Visible(w: World, turn: int): Log
    requires w.start <= |w.log|
  {
    w.base + Own(w.log[w.start..], turn)
  }

  function Upto(w: World): nat {
    if w.cursor < w.start then w.start else w.cursor
  }

  ghost predicate Inv(w: World, turn: int) {
    && InOrder(w.log)
    && w.attachedAt <= |w.log| && w.start <= |w.log| && w.cursor <= |w.log|
    && (w.phase.Idle? || w.phase.Attached? ==> w.delivered == [] && w.base == [] && w.lastSeq == 0 && w.start == 0 && !w.replayed)
    && (w.phase.Live? || w.phase.Done? ==>
          if w.replayed then w.base == OfTurn(w.log[..w.start], turn) else w.base == [] && w.start == w.attachedAt)
    && (w.phase.Attached? ==> w.cursor == w.attachedAt)
    && (w.phase.Live? ==> LiveInv(w, turn))
    && (w.phase.Done? ==> HasTerminal(w.delivered) && w.delivered == ThroughTerminal(Visible(w, turn)))
  }

  ghost predicate LiveInv(w: World, turn: int)
    requires w.start <= |w.log| && w.cursor <= |w.log|
  {
    && !HasTerminal(w.delivered)
    && w.delivered == w.base + Own(w.log[w.start..Upto(w)], turn)
    && w.lastSeq < NextSeq(w.log)
    && Fresh(w.log, w.start, w.lastSeq)
    && Covered(w.log[..w.start], w.cursor, w.lastSeq, turn)
  }

  /** What only the tail can send is numbered above what the replay sent. */
  ghost predicate Fresh(log: Log, start: nat, lastSeq: int) {
    forall i :: start <= i < |log| ==> log[i].seqNo > lastSeq
  }

  /** What the tail still repeats of the replayed part is numbered at or below it. */
  ghost predicate Covered(replayed: Log, cursor: nat, lastSeq: int, turn: int) {
    forall i :: cursor <= i < |replayed| && replayed[i].ev.turnId == Some(turn) ==> replayed[i].seqNo <= lastSeq
  }

  lemma {:induction false} ThroughTerminalAppend(x: Log, y: Log)
    ensures HasTerminal(x) ==> ThroughTerminal(x + y) == ThroughTerminal(x)
    ensures !HasTerminal(x) ==> ThroughTerminal(x + y) == x + ThroughTerminal(y)
  {
    if x == [] {
      assert x + y == y;
    } else {
      ThroughTerminalAppend(x[1..], y);
      assert (x + y)[1..] == x[1..] + y;
    }
  }

  lemma {:induction false} ThroughTerminalKeeps(x: Log)
    ensures HasTerminal(ThroughTerminal(x)) <==> HasTerminal(x)
    ensures !HasTerminal(x) ==> ThroughTerminal(x) == x
  {
    if x != [] {
      ThroughTerminalKeeps(x[1..]);
      if !IsTerminalType(x[0].ev.etype) {
        assert ([x[0]] + ThroughTerminal(x[1..]))[1..] == ThroughTerminal(x[1..]);
      }
    }
  }

  lemma OwnEmpty(turn: int)
    ensures Own([], turn) == []
  {
  }

  lemma OwnSnoc(s: Log, r: Record, turn: int)
    ensures Own(s + [r], turn) == Own(s, turn) + (if r.ev.turnId == Some(turn) && Subscribed(r.ev.etype) then [r] else [])
  {
    assert (s + [r])[..|s|] == s;
    var o := OfTurn(s, turn);
    assert (o + [r])[..|o|] == o;
  }

  lemma OwnAppend(a: Log, b: Log, turn: int)
    ensures Own(a + b, turn) == Own(a, turn) + Own(b, turn)
  {
    OfTurnAppend(a, b, turn);
    SubscribedAppend(OfTurn(a, turn), OfTurn(b, turn));
  }

  lemma Assoc(a: Log, b: Log, c: Log)
    ensures (a + b) + c == a + (b + c)
  {
  }

  lemma SliceSnoc(s: Log, r: Record, from: nat)
    requires from <= |s|
    ensures (s + [r])[from..] == s[from..] + [r]
    ensures (s + [r])[..from] == s[..from]
  {
  }

  lemma SliceSplit(s: Log, from: nat, mid: nat)
    requires from <= mid <= |s|
    ensures s[from..] == s[from..mid] + s[mid..]
    ensures mid < |s| ==> s[from..mid + 1] == s[from..mid] + [s[mid]]
  {
  }

  lemma FreshSnoc(log: Log, r: Record, start: nat, lastSeq: int)
    requires Fresh(log, start, lastSeq) && r.seqNo > lastSeq
    ensures Fresh(log + [r], start, lastSeq)
  {
  }

  lemma CommitKeepsLive(w: World, ev: Event, turn: int)
    requires Inv(w, turn) && w.phase.Live?
    ensures LiveInv(Step(w, Commit(ev), turn), turn)
  {
    var w', r := Step(w, Commit(ev), turn), Record(NextSeq(w.log), ev);
    assert w'.log == w.log + [r] && NextSeq(w'.log) == r.seqNo + 1;
    hide Own, OfTurn, HasTerminal, Fresh, Covered, NextSeq, InOrder, Visible;
    SliceSnoc(w.log, r, w.start);
    FreshSnoc(w.log, r, w.start, w.lastSeq);
    assert w'.log[w.start..Upto(w)] == w.log[w.start..Upto(w)];
  }

  lemma CommitKeepsDone(w: World, ev: Event, turn: int)
    requires Inv(w, turn) && w.phase.Done?
    ensures var w' := Step(w, Commit(ev), turn);
            w'.delivered == ThroughTerminal(Visible(w', turn))
  {
    var w' := Step(w, Commit(ev), turn);
    VisibleHasTerminal(w, turn);
    hide Own, OfTurn, HasTerminal, ThroughTerminal, InOrder;
    var r := w'.log[|w.log|];
    SliceSnoc(w.log, r, w.start);
    OwnSnoc(w.log[w.start..], r, turn);
    var more := if r.ev.turnId == Some(turn) && Subscribed(r.ev.etype) then [r] else [];
    Assoc(w.base, Own(w.log[w.start..], turn), more);
    ThroughTerminalAppend(Visible(w, turn), more);
  }

  lemma CommitKeepsInv(w: World, ev: Event, turn: int)
    requires Inv(w, turn)
    ensures Inv(Step(w, Commit(ev), turn), turn)
  {
    var w' := Step(w, Commit(ev), turn);
    AppendInOrder(w.log, ev);
    if w.phase.Live? {
      CommitKeepsLive(w, ev, turn);
    } else if w.phase.Done? {
      CommitKeepsDone(w, ev, turn);
    }
    hide LiveInv, OfTurn, HasTerminal, ThroughTerminal, Visible, InOrder;
    SliceSnoc(w.log, w'.log[|w.log|], w.start);
  }

  lemma VisibleHasTerminal(w: World, turn: int)
    requires Inv(w, turn) && w.phase.Done?
    ensures HasTerminal(Visible(w, turn))
  {
    hide Own;
    ThroughTerminalKeeps(Visible(w, turn));
  }

  lemma {:induction false} MaxSeqBounds(s: Log)
    ensures forall r | r in s :: r.seqNo <= MaxSeq(s)
    ensures MaxSeq(s) == 0 || exists r | r in s :: r.seqNo == MaxSeq(s)
  {
    if s != [] {
      MaxSeqBounds(s[..|s| - 1]);
      assert s == s[..|s| - 1] + [s[|s| - 1]];
      if r :| r in s[..|s| - 1] && r.seqNo == MaxSeq(s[..|s| - 1]) {
        assert r in s;
      }
      assert s[|s| - 1] in s;
    }
  }

  lemma {:induction false} SubscribedAppend(a: Log, b: Log)
    ensures SubscribedOnly(a + b) == SubscribedOnly(a) + SubscribedOnly(b)
  {
    if b == [] {
      assert a + b == a;
    } else {
      assert (a + b)[..|a + b| - 1] == a + b[..|b| - 1];
      SubscribedAppend(a, b[..|b| - 1]);
    }
  }

  lemma ReplayCovers(log: Log, cursor: nat, turn: int)
    requires InOrder(log)
    ensures Covered(log, cursor, MaxSeq(OfTurn(log, turn)), turn)
    ensures MaxSeq(OfTurn(log, turn)) < NextSeq(log)
  {
    MaxSeqBounds(OfTurn(log, turn));
    OfTurnInOrder(log, turn);
    hide OfTurn, MaxSeq;
    forall i | cursor <= i < |log| && log[i].ev.turnId == Some(turn)
      ensures log[i].seqNo <= MaxSeq(OfTurn(log, turn))
    {
      OfTurnAll(log, turn, i);
    }
  }

  lemma ScanKeepsInv(w: World, history: Log, turn: int)
    requires Inv(w, turn) && w.phase.Attached? && multiset(history) == multiset(w.log)
    ensures Inv(Step(w, Scan(history), turn), turn)
  {
    var w' := Step(w, Scan(history), turn);
    var base := OfTurn(w.log, turn);
    PlanOfScan(history, w.log, turn);
    ThroughTerminalKeeps(base);
    ReplayCovers(w.log, w.cursor, turn);
    OwnEmpty(turn);
    hide Own, OfTurn, ThroughTerminal, HasTerminal, SortBySeq, MaxSeq;
    assert w.log[..|w.log|] == w.log;
    assert w.log[|w.log|..] == [] && w.log[|w.log|..|w.log|] == [];
    assert base + [] == base;
  }

  /** What the tail sends for the record at the cursor, once it is past the replayed part. */
  lemma TailEmits(w: World, turn: int)
    requires w.start <= w.cursor < |w.log| && w.phase.Live? && LiveInv(w, turn)
    ensures var r := w.log[w.cursor];
            var own := r.ev.turnId == Some(turn) && Subscribed(r.ev.etype);
            && TailStep(w, turn).delivered == w.delivered + (if own then [r] else [])
            && TailStep(w, turn).delivered == w.base + Own(w.log[w.start..w.cursor + 1], turn)
            && TailStep(w, turn).phase == if own && IsTerminalType(r.ev.etype) then Done else Live
  {
    hide Own, HasTerminal, NextSeq, Covered;
    SliceSplit(w.log, w.start, w.cursor);
    OwnSnoc(w.log[w.start..w.cursor], w.log[w.cursor], turn);
    assert w.delivered + [] == w.delivered;
  }

  /** The view, split at a position of the tail. */
  lemma VisibleSplit(w: World, turn: int, c: nat)
    requires w.start <= c <= |w.log|
    ensures Visible(w, turn) == (w.base + Own(w.log[w.start..c], turn)) + Own(w.log[c..], turn)
  {
    hide Own;
    SliceSplit(w.log, w.start, c);
    OwnAppend(w.log[w.start..c], w.log[c..], turn);
    Assoc(w.base, Own(w.log[w.start..c], turn), Own(w.log[c..], turn));
  }

  lemma TailFinishes(w: World, turn: int)
    requires w.start <= w.cursor < |w.log| && w.phase.Live? && LiveInv(w, turn)
    requires TailStep(w, turn).phase.Done?
    ensures var w' := TailStep(w, turn);
            HasTerminal(w'.delivered) && w'.delivered == ThroughTerminal(Visible(w', turn))
  {
    TailEmits(w, turn);
    var w', r := TailStep(w, turn), w.log[w.cursor];
    assert !HasTerminal(w.delivered);
    assert w'.log == w.log && w'.base == w.base && w'.start == w.start;
    assert w'.delivered == w.delivered + [r] && IsTerminalType(r.ev.etype);
    hide Own, ThroughTerminal, HasTerminal, LiveInv, TailStep, Visible, IsTerminalType;
    VisibleSplit(w', turn, w.cursor + 1);
    ThroughTerminalStep(w.delivered, r, Own(w.log[w.cursor + 1..], turn));
    HasTerminalOne(r);
    HasTerminalAppend(w.delivered, [r]);
  }

  lemma TailKeepsInv(w: World, turn: int)
    requires Inv(w, turn) && w.phase.Live? && w.cursor < |w.log|
    ensures Inv(TailStep(w, turn), turn)
  {
    hide Own, ThroughTerminal, HasTerminal, OfTurn, NextSeq;
    var w' := TailStep(w, turn);
    if w.cursor < w.start {
      assert w.log[..w.start][w.cursor] == w.log[w.cursor];
      assert w'.delivered == w.delivered;
    } else if w'.phase.Done? {
      TailFinishes(w, turn);
    } else {
      TailEmits(w, turn);
      if w'.delivered != w.delivered {
        NoTerminalSnoc(w.delivered, w.log[w.cursor]);
      }
    }
  }

  lemma NoTerminalSnoc(s: Log, r: Record)
    requires !HasTerminal(s) && !IsTerminalType(r.ev.etype)
    ensures !HasTerminal(s + [r])
  {
    HasTerminalAppend(s, [r]);
  }

  lemma ScanFailureKeepsInv(w: World, turn: int)
    requires Inv(w, turn) && w.phase.Attached?
    ensures Inv(Step(w, ScanFails, turn), turn)
  {
    var w' := Step(w, ScanFails, turn);
    OwnEmpty(turn);
    assert w.log[w'.start..Upto(w')] == [];
    hide Own, OfTurn, ThroughTerminal;
  }

  lemma StepKeepsInv(w: World, a: Action, turn: int)
    requires Inv(w, turn)
    ensures Inv(Step(w, a, turn), turn)
  {
    match a
    case Commit(ev) => CommitKeepsInv(w, ev, turn);
    case Attach =>
    case Scan(history) =>
      if w.phase.Attached? && multiset(history) == multiset(w.log) {
        ScanKeepsInv(w, history, turn);
      }
    case ScanFails =>
      if w.phase.Attached? {
        ScanFailureKeepsInv(w, turn);
      }
    case Tail =>
      if w.phase.Live? && w.cursor < |w.log| {
        TailKeepsInv(w, turn);
      }
  }

  lemma {:induction false} RunKeepsInv(log: Log, actions: seq<Action>, turn: int)
    requires InOrder(log)
    ensures Inv(Run(log, actions, turn), turn)
  {
    if actions != [] {
      RunKeepsInv(log, actions[..|actions| - 1], turn);
      StepKeepsInv(Run(log, actions[..|actions| - 1], turn), actions[|actions| - 1], turn);
    }
  }

  // ---------------------------------------------------------------- what the client gets

  /** At every moment what was sent is the beginning of what the client can see: in order, no gap, no repeat. */
  lemma DeliveredIsPrefix(w: World, turn: int)
    requires Inv(w, turn) && (w.phase.Live? || w.phase.Done?)
    ensures w.delivered <= ThroughTerminal(Visible(w, turn))
    ensures w.phase.Done? ==> w.delivered == ThroughTerminal(Visible(w, turn))
    ensures w.phase.Live? && w.cursor == |w.log| ==> w.delivered == Visible(w, turn)
  {
    OwnEmpty(turn);
    hide Own, OfTurn, ThroughTerminal, HasTerminal, NextSeq, Fresh, Covered;
    if w.phase.Live? {
      SliceSplit(w.log, w.start, Upto(w));
      var rest := w.log[Upto(w)..];
      OwnAppend(w.log[w.start..Upto(w)], rest, turn);
      Assoc(w.base, Own(w.log[w.start..Upto(w)], turn), Own(rest, turn));
      ThroughTerminalAppend(w.delivered, Own(rest, turn));
      assert w.cursor == |w.log| ==> rest == [];
    }
  }

  lemma {:induction false} SubscribedOnlyLoses(s: Log)
    ensures |SubscribedOnly(s)| <= |s|
    ensures |SubscribedOnly(s)| == |s| ==> forall r | r in s :: Subscribed(r.ev.etype)
  {
    if s != [] {
      SubscribedOnlyLoses(s[..|s| - 1]);
      assert s == s[..|s| - 1] + [s[|s| - 1]];
    }
  }

  lemma {:induction false} SubscribedOnlyAll(s: Log)
    ensures SubscribedOnly(s) == s <==> forall r | r in s :: Subscribed(r.ev.etype)
  {
    SubscribedOnlyLoses(s);
    if s != [] && forall r | r in s :: Subscribed(r.ev.etype) {
      SubscribedOnlyAll(s[..|s| - 1]);
      assert s[|s| - 1] in s;
      assert s == s[..|s| - 1] + [s[|s| - 1]];
    }
  }

  lemma {:induction false} ThroughTerminalOfSubscribed(s: Log)
    ensures ThroughTerminal(SubscribedOnly(s)) == SubscribedOnly(ThroughTerminal(s))
  {
    if s != [] {
      var r, x := s[0], SubscribedOnly(s[1..]);
      assert s == [r] + s[1..];
      SubscribedAppend([r], s[1..]);
      assert [r][..0] == [];
      assert ([r] + x)[1..] == x && [] + x == x;
      ThroughTerminalOfSubscribed(s[1..]);
      SubscribedAppend([r], ThroughTerminal(s[1..]));
      assert [] + SubscribedOnly(ThroughTerminal(s[1..])) == SubscribedOnly(ThroughTerminal(s[1..]));
    }
  }

  /** The turn's own story: all its events up to and including the first terminal one. */
  function Story(log: Log, turn: int): Log {
    ThroughTerminal(OfTurn(log, turn))
  }

  lemma StorySplits(w: World, turn: int)
    requires w.start <= |w.log|
    ensures var before, after := OfTurn(w.log[..w.start], turn), OfTurn(w.log[w.start..], turn);
            Story(w.log, turn) == if HasTerminal(before) then ThroughTerminal(before) else before + ThroughTerminal(after)
  {
    assert w.log == w.log[..w.start] + w.log[w.start..];
    OfTurnAppend(w.log[..w.start], w.log[w.start..], turn);
    ThroughTerminalAppend(OfTurn(w.log[..w.start], turn), OfTurn(w.log[w.start..], turn));
  }

  lemma VisibleStorySplits(w: World, turn: int)
    requires w.start <= |w.log|
    ensures ThroughTerminal(Visible(w, turn)) ==
            if HasTerminal(w.base) then ThroughTerminal(w.base)
            else w.base + SubscribedOnly(ThroughTerminal(OfTurn(w.log[w.start..], turn)))
  {
    var after := OfTurn(w.log[w.start..], turn);
    ThroughTerminalAppend(w.base, SubscribedOnly(after));
    ThroughTerminalOfSubscribed(after);
  }

  /** Every event of the turn after the client's own part of the log, up to the first terminal one, is subscribed. */
  predicate TailSubscribed(w: World, turn: int)
    requires w.start <= |w.log|
  {
    forall r | r in ThroughTerminal(OfTurn(w.log[w.start..], turn)) :: Subscribed(r.ev.etype)
  }

  /**
   After a successful replay the client's view is the turn's story if and only if the story ended
   before the scan or no unsubscribed event (in practice `turn_pending`) of the turn follows it.
   */
  lemma ReplayedViewExactIff(w: World, turn: int)
    requires Inv(w, turn) && (w.phase.Live? || w.phase.Done?) && w.replayed
    ensures ThroughTerminal(Visible(w, turn)) == Story(w.log, turn) <==> HasTerminal(w.base) || TailSubscribed(w, turn)
  {
    StorySplits(w, turn);
    VisibleStorySplits(w, turn);
    var after := ThroughTerminal(OfTurn(w.log[w.start..], turn));
    SubscribedOnlyAll(after);
    if w.base + SubscribedOnly(after) == w.base + after {
      assert SubscribedOnly(after) == (w.base + SubscribedOnly(after))[|w.base|..];
      assert after == (w.base + after)[|w.base|..];
    }
  }

  /** Without a replay the client sees what the tail carries. */
  lemma TailOnlyView(w: World, turn: int)
    requires w.start <= |w.log| && w.base == []
    ensures ThroughTerminal(Visible(w, turn)) == SubscribedOnly(ThroughTerminal(OfTurn(w.log[w.start..], turn)))
  {
    VisibleStorySplits(w, turn);
    var seen := SubscribedOnly(ThroughTerminal(OfTurn(w.log[w.start..], turn)));
    assert [] + seen == seen;
    hide OfTurn, SubscribedOnly, Own;
  }

  lemma SlicedTurnInOrder(log: Log, turn: int, n: nat)
    requires InOrder(log) && n <= |log|
    ensures Ascending(OfTurn(log[..n], turn) + OfTurn(log[n..], turn))
  {
    assert log == log[..n] + log[n..];
    OfTurnAppend(log[..n], log[n..], turn);
    OfTurnInOrder(log, turn);
  }

  /**
   When the scan fails the client falls back to the live tail; its view is still the turn's story if
   and only if no event of the turn was committed before it attached and no unsubscribed one follows.
   */
  lemma FailedScanExactIff(w: World, turn: int)
    requires Inv(w, turn) && (w.phase.Live? || w.phase.Done?) && !w.replayed
    ensures ThroughTerminal(Visible(w, turn)) == Story(w.log, turn)
       <==> OfTurn(w.log[..w.attachedAt], turn) == [] && TailSubscribed(w, turn)
  {
    var before, after := OfTurn(w.log[..w.start], turn), OfTurn(w.log[w.start..], turn);
    StorySplits(w, turn);
    TailOnlyView(w, turn);
    SubscribedOnlyAll(ThroughTerminal(after));
    SlicedTurnInOrder(w.log, turn, w.start);
    assert before == [] ==> !HasTerminal(before) && before + ThroughTerminal(after) == ThroughTerminal(after);
    hide OfTurn, SubscribedOnly, HasTerminal, ThroughTerminal, Visible, LiveInv, InOrder, Ascending;
    if before != [] {
      StoryStartsBefore(before, after);
    }
  }

  /** A story that starts before the attachment is not what any part of the tail spells. */
  lemma StoryStartsBefore(before: Log, after: Log)
    requires before != [] && Ascending(before + after)
    ensures before + ThroughTerminal(after) != SubscribedOnly(ThroughTerminal(after))
    ensures ThroughTerminal(before) != SubscribedOnly(ThroughTerminal(after))
  {
    var seen := SubscribedOnly(ThroughTerminal(after));
    if seen != [] {
      SubscribedOnlyFrom(ThroughTerminal(after), seen[0]);
      ThroughTerminalFrom(after, seen[0]);
      var j :| 0 <= j < |after| && after[j] == seen[0];
      assert (before + after)[|before| + j] == seen[0] && (before + after)[0] == before[0];
    }
    assert (before + ThroughTerminal(after))[0] == before[0];
  }

  lemma {:induction false} SubscribedOnlyFrom(s: Log, r: Record)
    ensures r in SubscribedOnly(s) ==> r in s
  {
    if s != [] {
      SubscribedOnlyFrom(s[..|s| - 1], r);
      assert s == s[..|s| - 1] + [s[|s| - 1]];
    }
  }

  lemma {:induction false} ThroughTerminalFrom(s: Log, r: Record)
    ensures r in ThroughTerminal(s) ==> r in s
  {
    if s != [] {
      ThroughTerminalFrom(s[1..], r);
      assert s == [s[0]] + s[1..];
    }
  }

  /** Nothing of the turn is out of the client's sight: replayed or still to be carried by the tail. */
  predicate NothingMissed(w: World, turn: int)
    requires w.start <= |w.log| && w.attachedAt <= |w.log|
  {
    if w.replayed then HasTerminal(w.base) || TailSubscribed(w, turn)
    else OfTurn(w.log[..w.attachedAt], turn) == [] && TailSubscribed(w, turn)
  }

  /**
   Exactly once, for every interleaving of commits with attach, scan, failed scan and tail in which
   nothing of the turn is out of the client's sight: the client holds a prefix of the turn's story at
   every moment, the whole story when it is told that the turn is done, and everything committed so far
   whenever it has read the tail to its end.
   */
  lemma ExactlyOnce(log: Log, actions: seq<Action>, turn: int)
    requires InOrder(log)
    ensures var w := Run(log, actions, turn);
            Inv(w, turn) && ((w.phase.Live? || w.phase.Done?) && NothingMissed(w, turn) ==>
              && w.delivered <= Story(w.log, turn)
              && (w.phase.Done? ==> w.delivered == Story(w.log, turn) && HasTerminal(w.delivered))
              && (w.phase.Live? && w.cursor == |w.log| ==>
                    w.delivered == OfTurn(w.log, turn) && !HasTerminal(OfTurn(w.log, turn))))
  {
    var w := Run(log, actions, turn);
    RunKeepsInv(log, actions, turn);
    hide OfTurn, SubscribedOnly, ThroughTerminal, HasTerminal, NextSeq, Fresh, Covered, Run, TailSubscribed, Visible;
    if (w.phase.Live? || w.phase.Done?) && NothingMissed(w, turn) {
      if w.replayed {
        ReplayedViewExactIff(w, turn);
      } else {
        FailedScanExactIff(w, turn);
      }
      DeliveredIsPrefix(w, turn);
      if w.phase.Live? && w.cursor == |w.log| {
        ThroughTerminalKeeps(w.delivered);
        ThroughTerminalKeeps(OfTurn(w.log, turn));
      }
    }
  }

  /** The condition is exact: in every run, the client's view is the turn's story if and only if nothing is missed. */
  lemma ViewExactIff(log: Log, actions: seq<Action>, turn: int)
    requires InOrder(log)
    ensures var w := Run(log, actions, turn);
            Inv(w, turn) && (w.phase.Live? || w.phase.Done? ==>
              (ThroughTerminal(Visible(w, turn)) == Story(w.log, turn) <==> NothingMissed(w, turn)))
  {
    var w := Run(log, actions, turn);
    RunKeepsInv(log, actions, turn);
    hide OfTurn, SubscribedOnly, ThroughTerminal, HasTerminal, NextSeq, Fresh, Covered, Run, TailSubscribed, Visible;
    if w.phase.Live? || w.phase.Done? {
      if w.replayed {
        ReplayedViewExactIff(w, turn);
      } else {
        FailedScanExactIff(w, turn);
      }
    }
  }

  // ---------------------------------------------------------------- what a client can miss

  lemma RunSnoc(log: Log, actions: seq<Action>, a: Action, turn: int)
    ensures Run(log, actions + [a], turn) == Step(Run(log, actions, turn), a, turn)
  {
    assert (actions + [a])[..|actions|] == actions;
    hide Step;
  }

  /** A client that has scanned an empty log. */
  const EARLY := World([], Live, 0, true, 0, [], 0, 0, [])

  const ATTACH_AND_SCAN: seq<Action> := [Attach] + [Scan([])]

  lemma EarlyScan(turn: int)
    ensures Run([], ATTACH_AND_SCAN, turn) == EARLY
  {
    assert Run([], [], turn) == Initial([]);
    RunSnoc([], [], Attach, turn);
    assert [] + [Attach] == [Attach];
    RunSnoc([], [Attach], Scan([]), turn);
    assert !Plan([], turn).hitTerminal && Plan([], turn).lastSeq == 0 && Plan([], turn).events == [];
    hide Plan, Run;
  }

  function Announced(turn: int): Event { Event(TurnPending, Some(turn), None, EMPTY_PAYLOAD) }

  function Ended(turn: int): Event { Event(TurnCompleted, Some(turn), None, EMPTY_PAYLOAD) }

  function WholeTurn(turn: int): Log { [Record(1, Announced(turn)), Record(2, Ended(turn))] }

  lemma TailAfterCommits(turn: int)
    ensures var w := Step(Step(EARLY, Commit(Announced(turn)), turn), Commit(Ended(turn)), turn);
            && w == EARLY.(log := WholeTurn(turn))
            && Step(Step(w, Tail, turn), Tail, turn)
               == w.(cursor := 2, delivered := [WholeTurn(turn)[1]], phase := Done)
  {
  }

  lemma StoryOfWholeTurn(turn: int)
    ensures Story(WholeTurn(turn), turn) == WholeTurn(turn)
  {
    var log := WholeTurn(turn);
    assert log[..1] == [log[0]] && OfTurn([log[0]], turn) == [log[0]];
    assert log[1..] == [log[1]] && ThroughTerminal([log[1]]) == [log[1]];
  }

  /**
   A client that attaches and scans before its turn is announced, and follows it to its end, is told
   that the turn is done without ever having seen that it was pending.
   */
  lemma PendingIsMissed(turn: int)
    ensures var actions := ATTACH_AND_SCAN + [Commit(Announced(turn))] + [Commit(Ended(turn))] + [Tail] + [Tail];
            var w := Run([], actions, turn);
            && w.phase.Done? && Story(w.log, turn) == WholeTurn(turn)
            && w.delivered == [WholeTurn(turn)[1]]
  {
    var start := ATTACH_AND_SCAN;
    var p, e := Commit(Announced(turn)), Commit(Ended(turn));
    EarlyScan(turn);
    RunSnoc([], start, p, turn);
    RunSnoc([], start + [p], e, turn);
    RunSnoc([], start + [p] + [e], Tail, turn);
    RunSnoc([], start + [p] + [e] + [Tail], Tail, turn);
    TailAfterCommits(turn);
    StoryOfWholeTurn(turn);
    hide Run, Step, Story;
  }

  // ---------------------------------------------------------------- where a stream ends

  const TURN_ENDS := {TurnCompleted, TurnFailed, TurnCanceled, TurnBlocked}

  /** The client asks for every event of a turn and its steps but `turn_pending`. */
  lemma SubscribedTypes(t: EventType)
    ensures Subscribed(t) <==>
            t in TURN_ENDS + {TurnStarted, LlmInvoked, LlmCompleted, LlmFailed, ToolInvoked, ToolCompleted, ToolFailed}
  {
  }

  /** A stream ends on a record of an active turn if and only if the record closes the turn in the projection. */
  lemma StreamEndsWithTurn(p: Projection.Proj, r: Record, turn: int)
    requires r.ev.turnId == Some(turn)
    ensures IsTerminalType(r.ev.etype) <==> r.ev.etype in TURN_ENDS
    ensures turn in p.activeTurns ==> (IsTerminalType(r.ev.etype) <==> turn !in Projection.ApplyRecord(p, r).activeTurns)
    ensures IsTerminalType(r.ev.etype) ==> turn !in Projection.ApplyRecord(p, r).activeTurns
  {
  }

  /** Whatever a live stream leaves out, it is not the start or the end of a turn or a step. */
  lemma UnsubscribedMovesNothing(p: Projection.Proj, r: Record)
    requires !Subscribed(r.ev.etype)
    ensures Projection.ApplyRecord(p, r).activeTurns == p.activeTurns && Projection.ApplyRecord(p, r).activeSteps == p.activeSteps
  {
  }

  predicate EndsOf(r: Record, turn: int) {
    r.ev.turnId == Some(turn) && r.ev.etype in TURN_ENDS
  }

  lemma {:induction false} HasTerminalIff(s: Log)
    ensures HasTerminal(s) <==> exists r :: r in s && r.ev.etype in TURN_ENDS
    ensures HasTerminal(ThroughTerminal(s)) <==> HasTerminal(s)
  {
    if s != [] {
      HasTerminalIff(s[1..]);
      assert s == [s[0]] + s[1..];
      assert ([s[0]] + ThroughTerminal(s[1..]))[1..] == ThroughTerminal(s[1..]);
    }
  }

  /** The replay ends the stream if and only if the history has an event of the turn of one of the four closing types. */
  lemma ReplayEndsIff(history: Log, turn: int)
    ensures Plan(history, turn).hitTerminal <==> exists r :: r in history && EndsOf(r, turn)
  {
    var own := OfTurn(history, turn);
    var sorted := SortBySeq(own);
    HasTerminalIff(sorted);
    SortMultiset(own);
    forall r: Record ensures r in sorted <==> r in history && r.ev.turnId == Some(turn) {
      OfTurnCount(history, turn, r);
      assert r in sorted <==> r in multiset(sorted);
      assert r in own <==> r in multiset(own);
      assert r in history <==> r in multiset(history);
    }
    hide HasTerminal, ThroughTerminal, SortBySeq, OfTurn;
  }

  lemma {:induction false} LastIsTerminal(s: Log)
    requires HasTerminal(s)
    ensures var t := ThroughTerminal(s);
            t != [] && t[|t| - 1] in s && t[|t| - 1].ev.etype in TURN_ENDS
  {
    if !IsTerminalType(s[0].ev.etype) {
      LastIsTerminal(s[1..]);
    }
  }

  lemma VisibleIsOwn(w: World, turn: int, r: Record)
    requires Inv(w, turn) && w.phase.Done? && r in Visible(w, turn)
    ensures r in w.log && r.ev.turnId == Some(turn)
  {
    var own := w.log[w.start..];
    SubscribedOnlyFrom(OfTurn(own, turn), r);
    OfTurnInOrder(own, turn);
    OfTurnInOrder(w.log[..w.start], turn);
    hide OfTurn, SubscribedOnly;
  }

  /** The turn is closed by this record of the log. */
  predicate ClosedAt(log: Log, last: Record, turn: int) {
    exists n :: 0 <= n < |log| && log[n] == last && EndsOf(log[n], turn) && turn !in Projection.Fold(log[..n + 1]).activeTurns
  }

  lemma EndClosesTurn(log: Log, last: Record, turn: int)
    requires last in log && EndsOf(last, turn)
    ensures ClosedAt(log, last, turn)
  {
    var n :| 0 <= n < |log| && log[n] == last;
    assert log[..n + 1] == log[..n] + [last];
    Projection.FoldSnoc(log[..n], last);
    hide Projection.Fold, Projection.ApplyRecord;
    StreamEndsWithTurn(Projection.Fold(log[..n]), last, turn);
  }

  /**
   In every run, a client that is told its turn is done holds, as its last event, a record of the log
   that closed the turn: in the log up to that record the turn is not active.
   */
  lemma DoneMeansClosed(log: Log, actions: seq<Action>, turn: int)
    requires InOrder(log) && Run(log, actions, turn).phase.Done?
    ensures var w := Run(log, actions, turn);
            w.delivered != [] && ClosedAt(w.log, w.delivered[|w.delivered| - 1], turn)
  {
    var w := Run(log, actions, turn);
    RunKeepsInv(log, actions, turn);
    assert w.start <= |w.log| && HasTerminal(w.delivered) && w.delivered == ThroughTerminal(Visible(w, turn));
    hide Run, Visible, HasTerminal, ThroughTerminal, ClosedAt;
    HasTerminalIff(Visible(w, turn));
    LastIsTerminal(Visible(w, turn));
    var last := w.delivered[|w.delivered| - 1];
    VisibleIsOwn(w, turn, last);
    hide Inv;
    EndClosesTurn(w.log, last, turn);
  }
}
