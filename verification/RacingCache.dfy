/**
 The cache under overlapping catch-ups: a catch-up inserts its entry, replays
 without holding the lock, and only at its end joins the access order and makes
 room. Other operations come in between.

 A catch-up replays onto the projection it found or created, even when the cache
 has dropped that one since; projections are told apart by the order of their creation.
 */
module RacingCache {
  import opened Wrappers
  import opened Events
  import opened Projection
  import opened ProjectionFacts
  import opened ProjectionCache

  datatype Racing = Racing(c: Cache, inFlight: multiset<string>, ids: map<string, nat>, created: nat)

  datatype Action =
    | Hit(k: string)
    | Invalidate(k: string)
    | Begin(k: string)
    | Replay(k: string, id: nat, r: Record)
    | End(k: string)

  /** The projection with this id is the one that the cache holds for `k`. */
  predicate Holds(s: Racing, k: string, id: nat) {
    k in s.c.entries && k in s.ids && s.ids[k] == id
  }

  /** An end without a begin is not a step. A mirrored write is a hit and a replay onto what it found. */
  function Step(s: Racing, a: Action): Racing {
    match a
    case Hit(k) => s.(c := Touched(s.c, k))
    case Invalidate(k) => s.(c := Invalidated(s.c, k))
    case Begin(k) =>
      if k in s.c.entries then s.(inFlight := s.inFlight + multiset{k})
      else Racing(s.c.(entries := s.c.entries[k := NEW_PROJ]), s.inFlight + multiset{k}, s.ids[k := s.created], s.created + 1)
    case Replay(k, id, r) =>
      if Holds(s, k, id) then s.(c := s.c.(entries := s.c.entries[k := ApplyRecord(s.c.entries[k], r)])) else s
    case End(k) =>
      if k in s.inFlight
      then s.(c := Evicted(s.c.(order := s.c.order + [k])), inFlight := s.inFlight - multiset{k})
      else s
  }

  function Run(cap: nat, actions: seq<Action>): Racing {
    if actions == [] then Racing(Cache(map[], [], cap), multiset{}, map[], 0)
    else Step(Run(cap, actions[..|actions| - 1]), actions[|actions| - 1])
  }

  function Listed(s: Racing): set<string> { set k | k in s.c.order }

  function Flying(s: Racing): set<string> { set k | k in s.inFlight }

  /** Every entry is listed or being read in, and the listed ones that are not being read in fit the capacity. */
  ghost predicate Inv(s: Racing) {
    && s.c.entries.Keys <= Listed(s) + Flying(s)
    && |Listed(s) - Flying(s)| <= s.c.cap
  }

  lemma {:induction false} EvictedFacts(c: Cache)
    ensures var e := Evicted(c);
            && e.cap == c.cap && |e.order| <= c.cap
            && e.entries.Keys <= c.entries.Keys
            && (forall k | k in e.entries :: e.entries[k] == c.entries[k] && (k in c.order ==> k in e.order))
    decreases |c.order|
  {
    if |c.order| > c.cap {
      var c1 := c.(entries := c.entries - {c.order[0]}, order := c.order[1..]);
      EvictedFacts(c1);
      assert forall k | k in c.order :: k == c.order[0] || k in c1.order;
    }
  }

  lemma {:induction false} ListSize(order: seq<string>)
    ensures |set k | k in order| <= |order|
  {
    if order != [] {
      ListSize(order[1..]);
      assert (set k | k in order) == {order[0]} + (set k | k in order[1..]);
    }
  }

  lemma SubsetSize(a: set<string>, b: set<string>)
    requires a <= b
    ensures |a| <= |b|
    decreases |b|
  {
    if a != {} {
      var x :| x in a;
      SubsetSize(a - {x}, b - {x});
    }
  }

  lemma EndKeepsInv(s: Racing, k: string)
    requires Inv(s) && k in s.inFlight
    ensures Inv(Step(s, End(k)))
  {
    var pushed := s.c.(order := s.c.order + [k]);
    var s' := Step(s, End(k));
    EvictedFacts(pushed);
    ListSize(s'.c.order);
    SubsetSize(Listed(s') - Flying(s'), Listed(s'));
    hide Evicted;
    forall j | j in s'.c.entries ensures j in Listed(s') + Flying(s') {
      assert j in s.c.entries;
      if j != k && j !in s.c.order {
        assert j in s.inFlight && j in s'.inFlight;
      }
    }
  }

  lemma BeginKeepsInv(s: Racing, k: string)
    requires Inv(s)
    ensures Inv(Step(s, Begin(k)))
  {
    var s' := Step(s, Begin(k));
    assert Flying(s') == Flying(s) + {k};
    SubsetSize(Listed(s') - Flying(s'), Listed(s) - Flying(s));
  }

  lemma StepKeepsInv(s: Racing, a: Action)
    requires Inv(s)
    ensures Inv(Step(s, a))
  {
    var s' := Step(s, a);
    match a {
      case End(k) =>
        if k in s.inFlight {
          EndKeepsInv(s, k);
        }
      case Hit(k) =>
        if k in s.c.entries {
          assert Listed(s') == Listed(s) + {k};
          SubsetSize(Listed(s') - Flying(s'), Listed(s) - Flying(s));
        }
      case Invalidate(k) =>
        SubsetSize(Listed(s') - Flying(s'), Listed(s) - Flying(s));
      case Begin(k) =>
        BeginKeepsInv(s, k);
      case Replay(_, _, _) =>
    }
  }

  lemma {:induction false} FlyingSize(m: multiset<string>)
    ensures |set k | k in m| <= |m|
    decreases |m|
  {
    if m != multiset{} {
      var x :| x in m;
      var rest := m - multiset{x};
      FlyingSize(rest);
      assert (set k | k in m) == {x} + (set k | k in rest);
    }
  }

  lemma {:induction false} RunKeepsInv(cap: nat, actions: seq<Action>)
    ensures Inv(Run(cap, actions)) && Run(cap, actions).c.cap == cap
  {
    if actions != [] {
      RunKeepsInv(cap, actions[..|actions| - 1]);
      StepKeepsInv(Run(cap, actions[..|actions| - 1]), actions[|actions| - 1]);
      var s := Run(cap, actions[..|actions| - 1]);
      var a := actions[|actions| - 1];
      if a.End? {
        EvictedFacts(s.c.(order := s.c.order + [a.k]));
      }
    }
  }

  /**
   However catch-ups overlap with hits, invalidations and each other, every cached task is in the
   access order or being read in, and the cache never holds more than its capacity plus the number of
   catch-ups under way.
   */
  lemma RacingCacheIsBounded(cap: nat, actions: seq<Action>)
    ensures var s := Run(cap, actions);
            && (forall k | k in s.c.entries :: k in s.c.order || k in s.inFlight)
            && |s.c.entries| <= cap + |s.inFlight|
  {
    RunKeepsInv(cap, actions);
    var s := Run(cap, actions);
    forall k | k in s.c.entries ensures k in s.c.order || k in s.inFlight {
      assert k in Listed(s) + Flying(s);
    }
    FlyingSize(s.inFlight);
    var bound := (Listed(s) - Flying(s)) + Flying(s);
    SubsetSize(s.c.entries.Keys, bound);
    assert |s.c.entries.Keys| == |s.c.entries|;
  }

  // ---------------------------------------------------------------- contents

  /** The records replayed onto the projection that the cache holds for `k`, since it was created. */
  function Replayed(cap: nat, actions: seq<Action>, k: string): Log {
    if actions == [] then []
    else
      var front, a := actions[..|actions| - 1], actions[|actions| - 1];
      var s, recs := Run(cap, front), Replayed(cap, front, k);
      if a == Begin(k) && k !in s.c.entries then []
      else if a.Replay? && a.k == k && Holds(s, k, a.id) then recs + [a.r]
      else recs
  }

  lemma StepContents(s: Racing, a: Action, k: string, recs: Log)
    requires k in s.c.entries ==> s.c.entries[k] == Fold(recs)
    requires k in Step(s, a).c.entries
    ensures Step(s, a).c.entries[k] ==
            if a == Begin(k) && k !in s.c.entries then Fold([])
            else if a.Replay? && a.k == k && Holds(s, k, a.id) then Fold(recs + [a.r])
            else Fold(recs)
  {
    if a.End? {
      EvictedFacts(s.c.(order := s.c.order + [a.k]));
    }
    if a.Replay? {
      FoldSnoc(recs, a.r);
    }
    assert Fold([]) == NEW_PROJ;
    hide ApplyRecord, Evicted, Fold;
  }

  /** In every run, a cached projection is the fold of what was replayed onto it, in the order of the replays. */
  lemma {:induction false} EntryIsReplay(cap: nat, actions: seq<Action>, k: string)
    requires k in Run(cap, actions).c.entries
    ensures Run(cap, actions).c.entries[k] == Fold(Replayed(cap, actions, k))
  {
    if actions != [] {
      var front, a := actions[..|actions| - 1], actions[|actions| - 1];
      if k in Run(cap, front).c.entries {
        EntryIsReplay(cap, front, k);
      }
      hide Fold, Step;
      StepContents(Run(cap, front), a, k, Replayed(cap, front, k));
    }
  }

  /** A cached projection that shows a log has the log's turn events replayed once each, in order. */
  lemma ShowsLogNeeds(cap: nat, actions: seq<Action>, k: string, log: Log)
    requires k in Run(cap, actions).c.entries && Run(cap, actions).c.entries[k] == Fold(log)
    ensures TurnIds(Replayed(cap, actions, k)) == TurnIds(log)
  {
    EntryIsReplay(cap, actions, k);
    RecentTurnsMeaning(log);
    RecentTurnsMeaning(Replayed(cap, actions, k));
    hide Fold, Run, Replayed;
  }

  /** The records that one catch-up replays. */
  function ReplaysOf(actions: seq<Action>, k: string, id: nat): Log {
    if actions == [] then []
    else
      var front, a := ReplaysOf(actions[..|actions| - 1], k, id), actions[|actions| - 1];
      if a.Replay? && a.k == k && a.id == id then front + [a.r] else front
  }

  predicate Begins(actions: seq<Action>, k: string) {
    exists i :: 0 <= i < |actions| && actions[i] == Begin(k)
  }

  lemma RunSnoc(cap: nat, actions: seq<Action>, a: Action, k: string)
    ensures Run(cap, actions + [a]) == Step(Run(cap, actions), a)
    ensures Replayed(cap, actions + [a], k) ==
            if a == Begin(k) && k !in Run(cap, actions).c.entries then []
            else if a.Replay? && a.k == k && Holds(Run(cap, actions), k, a.id) then Replayed(cap, actions, k) + [a.r]
            else Replayed(cap, actions, k)
  {
    assert (actions + [a])[..|actions|] == actions;
    hide Step;
  }

  /** If `k` is cached at all, then by the projection with this id. */
  predicate OnlyAs(s: Racing, k: string, id: nat) {
    k in s.c.entries ==> Holds(s, k, id)
  }

  lemma OwnStep(s: Racing, a: Action, k: string, id: nat)
    requires OnlyAs(s, k, id) && a != Begin(k)
    ensures OnlyAs(Step(s, a), k, id)
    ensures k in Step(s, a).c.entries ==> k in s.c.entries
  {
    if a.End? {
      EvictedFacts(s.c.(order := s.c.order + [a.k]));
    }
    hide Evicted, ApplyRecord;
  }

  /** What the cached projection of `k`, if any, has replayed is what this catch-up has. */
  predicate OwnOnly(cap: nat, actions: seq<Action>, k: string, id: nat, recs: Log) {
    OnlyAs(Run(cap, actions), k, id) && (k in Run(cap, actions).c.entries ==> Replayed(cap, actions, k) == recs)
  }

  lemma OwnMore(cap: nat, actions: seq<Action>, a: Action, k: string, id: nat, recs: Log)
    requires OwnOnly(cap, actions, k, id, recs) && a != Begin(k)
    ensures OwnOnly(cap, actions + [a], k, id, if a.Replay? && a.k == k && a.id == id then recs + [a.r] else recs)
  {
    RunSnoc(cap, actions, a, k);
    OwnStep(Run(cap, actions), a, k, id);
    hide Run, Replayed, Step;
  }

  lemma OwnStart(cap: nat, before: seq<Action>, k: string)
    requires k !in Run(cap, before).c.entries
    ensures OwnOnly(cap, before + [Begin(k)], k, Run(cap, before).created, [])
  {
    RunSnoc(cap, before, Begin(k), k);
    hide Run, Replayed;
  }

  lemma {:induction false} OwnReplays(cap: nat, begun: seq<Action>, middle: seq<Action>, k: string, id: nat)
    requires OwnOnly(cap, begun, k, id, []) && !Begins(middle, k)
    ensures OwnOnly(cap, begun + middle, k, id, ReplaysOf(middle, k, id))
  {
    hide OwnOnly;
    if middle == [] {
      assert begun + middle == begun;
    } else {
      var front, a := middle[..|middle| - 1], middle[|middle| - 1];
      assert forall i :: 0 <= i < |front| ==> front[i] == middle[i];
      assert a != Begin(k);
      OwnReplays(cap, begun, front, k, id);
      assert begun + front + [a] == begun + middle;
      OwnMore(cap, begun + front, a, k, id, ReplaysOf(front, k, id));
    }
  }

  /**
   Catch-ups of one task that do not overlap: as long as no other catch-up of the task begins and the
   task stays cached, its entry is the fold of what its own catch-up has replayed so far, whatever
   happens to other tasks; so when that is the log, the entry shows the log.
   */
  lemma LoneCatchUpShowsLog(cap: nat, before: seq<Action>, middle: seq<Action>, k: string)
    requires k !in Run(cap, before).c.entries && !Begins(middle, k)
    requires k in Run(cap, before + [Begin(k)] + middle).c.entries
    ensures Run(cap, before + [Begin(k)] + middle).c.entries[k] == Fold(ReplaysOf(middle, k, Run(cap, before).created))
  {
    OwnStart(cap, before, k);
    OwnReplays(cap, before + [Begin(k)], middle, k, Run(cap, before).created);
    EntryIsReplay(cap, before + [Begin(k)] + middle, k);
    hide Fold, Run;
  }

  function ReplayAll(k: string, id: nat, log: Log): seq<Action> {
    seq(|log|, i requires 0 <= i < |log| => Replay(k, id, log[i]))
  }

  /** The same entry, order and catch-ups under way, with more replayed. */
  predicate HasReplayed(cap: nat, actions: seq<Action>, all: seq<Action>, k: string, id: nat, recs: Log) {
    var s, s' := Run(cap, actions), Run(cap, all);
    && Holds(s', k, id) && Replayed(cap, all, k) == recs
    && s'.inFlight == s.inFlight && s'.c.order == s.c.order && s'.c.cap == s.c.cap
  }

  lemma ReplayOne(cap: nat, actions: seq<Action>, all: seq<Action>, k: string, id: nat, recs: Log, r: Record)
    requires HasReplayed(cap, actions, all, k, id, recs)
    ensures HasReplayed(cap, actions, all + [Replay(k, id, r)], k, id, recs + [r])
  {
    RunSnoc(cap, all, Replay(k, id, r), k);
    hide Run, Replayed, ApplyRecord;
  }

  lemma ReplayAllSnoc(actions: seq<Action>, k: string, id: nat, log: Log)
    requires log != []
    ensures var front, r := log[..|log| - 1], log[|log| - 1];
            actions + ReplayAll(k, id, log) == actions + ReplayAll(k, id, front) + [Replay(k, id, r)]
  {
  }

  lemma {:induction false} ReplayAllReplays(cap: nat, actions: seq<Action>, k: string, id: nat, log: Log, recs: Log)
    requires Holds(Run(cap, actions), k, id) && Replayed(cap, actions, k) == recs
    ensures HasReplayed(cap, actions, actions + ReplayAll(k, id, log), k, id, recs + log)
  {
    hide Run, Replayed, ApplyRecord;
    if log == [] {
      assert actions + ReplayAll(k, id, log) == actions && recs + log == recs;
    } else {
      hide HasReplayed, Holds;
      var front, r := log[..|log| - 1], log[|log| - 1];
      ReplayAllReplays(cap, actions, k, id, front, recs);
      ReplayOne(cap, actions, actions + ReplayAll(k, id, front), k, id, recs + front, r);
      ReplayAllSnoc(actions, k, id, log);
      assert recs + front + [r] == recs + log;
    }
  }

  function Repeated(log: Log, n: nat): Log {
    if n == 0 then [] else Repeated(log, n - 1) + log
  }

  function EndAll(k: string, n: nat): seq<Action> {
    if n == 0 then [] else EndAll(k, n - 1) + [End(k)]
  }

  /** `n` catch-ups of one task, each beginning after the one before has replayed the log and before it has ended. */
  function Rounds(k: string, log: Log, n: nat): seq<Action> {
    if n == 0 then [] else Rounds(k, log, n - 1) + [Begin(k)] + ReplayAll(k, 0, log)
  }

  /** So many catch-ups are under way, and so many times the log has been replayed. */
  predicate UnderWay(cap: nat, actions: seq<Action>, k: string, log: Log, n: nat) {
    var s := Run(cap, actions);
    && s.inFlight == multiset{}[k := n] && s.c.order == [] && s.c.cap == cap
    && (if n == 0 then k !in s.c.entries && s.created == 0 else Holds(s, k, 0))
    && Replayed(cap, actions, k) == Repeated(log, n)
  }

  lemma OneMoreBegin(cap: nat, actions: seq<Action>, k: string, log: Log, n: nat)
    requires UnderWay(cap, actions, k, log, n)
    ensures var s := Run(cap, actions + [Begin(k)]);
            && Holds(s, k, 0) && s.inFlight == multiset{}[k := n + 1] && s.c.order == [] && s.c.cap == cap
            && Replayed(cap, actions + [Begin(k)], k) == Repeated(log, n)
  {
    RunSnoc(cap, actions, Begin(k), k);
    hide Run, Replayed;
  }

  lemma OneMoreRound(cap: nat, actions: seq<Action>, k: string, log: Log, n: nat)
    requires UnderWay(cap, actions, k, log, n)
    ensures UnderWay(cap, actions + [Begin(k)] + ReplayAll(k, 0, log), k, log, n + 1)
  {
    OneMoreBegin(cap, actions, k, log, n);
    ReplayAllReplays(cap, actions + [Begin(k)], k, 0, log, Repeated(log, n));
    hide Run, Replayed, ReplayAll;
  }

  lemma {:induction false} RoundsReplay(cap: nat, k: string, log: Log, n: nat)
    ensures UnderWay(cap, Rounds(k, log, n), k, log, n)
  {
    if n > 0 {
      RoundsReplay(cap, k, log, n - 1);
      OneMoreRound(cap, Rounds(k, log, n - 1), k, log, n - 1);
      hide UnderWay;
    }
  }

  /** After so many ends the task is still cached, as it was. */
  predicate Ending(cap: nat, before: seq<Action>, actions: seq<Action>, k: string, left: nat, ended: nat) {
    var s := Run(cap, actions);
    && s.inFlight == multiset{}[k := left] && |s.c.order| == ended && s.c.cap == cap
    && k in s.c.entries && Replayed(cap, actions, k) == Replayed(cap, before, k)
  }

  lemma OneMoreEnd(cap: nat, before: seq<Action>, actions: seq<Action>, k: string, left: nat, ended: nat)
    requires Ending(cap, before, actions, k, left, ended) && left > 0 && ended < cap
    ensures Ending(cap, before, actions + [End(k)], k, left - 1, ended + 1)
  {
    RunSnoc(cap, actions, End(k), k);
    hide Run, Replayed;
  }

  lemma {:induction false} EndsKeep(cap: nat, before: seq<Action>, k: string, left: nat, n: nat)
    requires Ending(cap, before, before, k, left, 0) && n <= left && n <= cap
    ensures Ending(cap, before, before + EndAll(k, n), k, left - n, n)
  {
    hide Ending;
    if n == 0 {
      assert before + EndAll(k, n) == before;
    } else {
      EndsKeep(cap, before, k, left, n - 1);
      OneMoreEnd(cap, before, before + EndAll(k, n - 1), k, left - (n - 1), n - 1);
      assert before + EndAll(k, n - 1) + [End(k)] == before + EndAll(k, n);
    }
  }

  lemma {:induction false} TurnIdsAppend(a: Log, b: Log)
    ensures |TurnIds(a + b)| == |TurnIds(a)| + |TurnIds(b)|
  {
    if b == [] {
      assert a + b == a;
    } else {
      var front, r := b[..|b| - 1], b[|b| - 1];
      TurnIdsAppend(a, front);
      TurnIdsSnoc(a + front, r);
      TurnIdsSnoc(front, r);
      assert a + front + [r] == a + b && front + [r] == b;
      hide TurnIds;
    }
  }

  lemma {:induction false} RepeatedTurnIds(log: Log, n: nat)
    requires n >= 1
    ensures |TurnIds(Repeated(log, n))| >= |TurnIds(log)|
    ensures n >= 2 && TurnIds(log) != [] ==> |TurnIds(Repeated(log, n))| > |TurnIds(log)|
    ensures n == 1 ==> Repeated(log, n) == log
  {
    TurnIdsAppend(Repeated(log, n - 1), log);
    if n > 1 {
      RepeatedTurnIds(log, n - 1);
    } else {
      assert Repeated(log, 0) == [] && [] + log == log;
    }
    hide TurnIds;
  }

  lemma OverlapReplays(cap: nat, k: string, log: Log, n: nat)
    requires 1 <= n <= cap
    ensures var actions := Rounds(k, log, n) + EndAll(k, n);
            var s := Run(cap, actions);
            s.inFlight == multiset{} && k in s.c.entries && Replayed(cap, actions, k) == Repeated(log, n)
  {
    var rounds := Rounds(k, log, n);
    RoundsReplay(cap, k, log, n);
    assert Ending(cap, rounds, rounds, k, n, 0);
    hide Run, Replayed;
    EndsKeep(cap, rounds, k, n, n);
    assert multiset{}[k := 0] == multiset{};
  }

  /**
   Overlapping catch-ups leave the log replayed as often as there were catch-ups: nothing is under way
   any more, the task is cached, and if its log has a turn event the entry shows the log if and only if
   there was one catch-up.
   */
  lemma OverlapShowsLogIff(cap: nat, k: string, log: Log, n: nat)
    requires 1 <= n <= cap
    ensures var s := Run(cap, Rounds(k, log, n) + EndAll(k, n));
            && s.inFlight == multiset{} && k in s.c.entries && s.c.entries[k] == Fold(Repeated(log, n))
            && (TurnIds(log) != [] ==> (s.c.entries[k] == Fold(log) <==> n == 1))
  {
    var actions := Rounds(k, log, n) + EndAll(k, n);
    OverlapReplays(cap, k, log, n);
    hide Run, Replayed, Fold, TurnIds;
    EntryIsReplay(cap, actions, k);
    RepeatedTurnIds(log, n);
    if Fold(Repeated(log, n)) == Fold(log) {
      ShowsLogNeeds(cap, actions, k, log);
    }
  }
}
