/**
 The event store of production: writes are appended to the broker's log and
 mirrored into the cached projection, reads are answered by the cache. The
 broker is an append that returns the next number; catching up reads the whole
 log; each store operation is one step.
 */
module BrokerStore {
  import opened Wrappers
  import opened Events
  import opened Projection
  import opened ProjectionCache
  import Lifecycle

  datatype Store = Store(logs: map<string, Log>, cache: Cache)

  function LogOf(logs: map<string, Log>, k: string): Log {
    if k in logs then logs[k] else []
  }

  function LogIn(s: Store, k: string): Log { LogOf(s.logs, k) }

  function Empty(cap: nat): Store { Store(map[], Cache(map[], [], cap)) }

  // ---------------------------------------------------------------- operations on values

  function Ensured(s: Store, k: string): Store {
    if k in s.cache.entries then s.(cache := Touched(s.cache, k))
    else s.(cache := CaughtUp(s.cache, k, LogIn(s, k)))
  }

  /** Every read first makes sure of the projection and then fetches it. */
  function Read(s: Store, k: string): Store {
    var e := Ensured(s, k);
    e.(cache := Touched(e.cache, k))
  }

  function Created(s: Store, k: string, ev: Event): Store {
    s.(logs := s.logs[k := Append(LogIn(s, k), ev)])
  }

  function CachedState(s: Store, k: string): Option<TaskState> {
    if k in s.cache.entries then Some(s.cache.entries[k].state) else None
  }

  function Accepts(s: Store, k: string, ev: Event): bool {
    ValidScope(ev) && ValidPayload(ev) && TransitionAllowed(CachedState(s, k), ev.etype)
  }

  function Mirror(c: Cache, k: string, r: Record): Cache {
    if k in c.entries then c.(entries := c.entries[k := ApplyRecord(c.entries[k], r)]) else c
  }

  /** An accepted event is appended and mirrored; a refused one at most touches the access order. */
  function Written(s: Store, k: string, ev: Event): Store {
    if !ValidScope(ev) || !ValidPayload(ev) then s
    else if !TransitionAllowed(CachedState(s, k), ev.etype) then s.(cache := Touched(s.cache, k))
    else
      var r := Record(NextSeq(LogIn(s, k)), ev);
      Store(s.logs[k := LogIn(s, k) + [r]], Mirror(Touched(Touched(s.cache, k), k), k, r))
  }

  function AppendAll(log: Log, evs: seq<Event>): Log {
    if evs == [] then log else Append(AppendAll(log, evs[..|evs| - 1]), evs[|evs| - 1])
  }

  function MirrorAll(c: Cache, k: string, log: Log, evs: seq<Event>): Cache {
    if evs == [] then c
    else
      var before := evs[..|evs| - 1];
      Mirror(MirrorAll(c, k, log, before), k, Record(NextSeq(AppendAll(log, before)), evs[|evs| - 1]))
  }

  /** A batch for one task goes past the guard. */
  function Batched(s: Store, k: string, evs: seq<Event>): Store {
    if evs == [] then s
    else Store(s.logs[k := AppendAll(LogIn(s, k), evs)], MirrorAll(Touched(s.cache, k), k, LogIn(s, k), evs))
  }

  function Dropped(s: Store, k: string): Store {
    s.(cache := Invalidated(s.cache, k))
  }

  // ---------------------------------------------------------------- coherence

  /** Each cached projection is the fold of its task's whole log. */
  ghost predicate Coherent(s: Store) {
    && (forall k | k in s.cache.entries :: s.cache.entries[k] == Fold(LogOf(s.logs, k)))
    && (forall k :: InOrder(LogOf(s.logs, k)))
  }

  lemma CoherentInOrder(s: Store, k: string)
    requires Coherent(s)
    ensures InOrder(LogIn(s, k))
  {
  }

  /** The access order lists exactly the cached tasks, once each, and stays within capacity. */
  ghost predicate LruOk(c: Cache) {
    && c.cap >= 1
    && |c.order| <= c.cap
    && NoRepeats(c.order)
    && (forall k :: k in c.order <==> k in c.entries)
  }

  predicate NoRepeats(order: seq<string>) {
    forall i, j :: 0 <= i < j < |order| ==> order[i] != order[j]
  }

  lemma {:induction false} WithoutNoRepeats(order: seq<string>, k: string)
    requires NoRepeats(order)
    ensures NoRepeats(Without(order, k))
  {
    if order != [] {
      FrontIsGone(order);
      assert NoRepeats(order[1..]);
      WithoutNoRepeats(order[1..], k);
      var r := Without(order[1..], k);
      assert order[0] !in r;
      assert forall j :: 0 <= j < |r| ==> r[j] in r;
    }
  }

  lemma PushNoRepeats(order: seq<string>, k: string)
    requires NoRepeats(order) && k !in order
    ensures NoRepeats(order + [k])
  {
    assert forall j :: 0 <= j < |order| ==> order[j] in order;
  }

  lemma TouchKeepsLru(c: Cache, k: string)
    requires LruOk(c)
    ensures LruOk(Touched(c, k)) && Touched(c, k).entries == c.entries
  {
    WithoutNoRepeats(c.order, k);
    PushNoRepeats(Without(c.order, k), k);
    hide NoRepeats;
  }

  lemma InvalidateKeepsLru(c: Cache, k: string)
    requires LruOk(c)
    ensures LruOk(Invalidated(c, k))
  {
    WithoutNoRepeats(c.order, k);
    hide NoRepeats;
  }

  lemma FrontIsGone(order: seq<string>)
    requires order != [] && NoRepeats(order)
    ensures NoRepeats(order[1..])
    ensures forall k :: k in order[1..] <==> k in order && k != order[0]
  {
    forall k ensures k in order[1..] <==> k in order && k != order[0] {
      if k in order[1..] {
        var j :| 0 <= j < |order[1..]| && order[1..][j] == k;
        assert order[j + 1] == k;
      }
    }
  }

  /** Replaying a missed task evicts at most the oldest entry and leaves the newcomer in. */
  lemma CatchUpKeepsLru(c: Cache, k: string, log: Log)
    requires LruOk(c) && k !in c.entries
    ensures var c' := CaughtUp(c, k, log);
            && LruOk(c') && k in c'.entries && c'.entries[k] == Fold(log)
            && (forall j | j in c'.entries && j != k :: j in c.entries && c'.entries[j] == c.entries[j])
            && c' == (if |c.order| < c.cap
                      then Cache(c.entries[k := Fold(log)], c.order + [k], c.cap)
                      else Cache(c.entries[k := Fold(log)] - {c.order[0]}, c.order[1..] + [k], c.cap))
  {
    ApplyAllFromNew(log);
    PushNoRepeats(c.order, k);
    hide ApplyAll, Fold, NoRepeats;
    var pushed := Cache(c.entries[k := Fold(log)], c.order + [k], c.cap);
    assert CaughtUp(c, k, log) == Evicted(pushed);
    if |pushed.order| > c.cap {
      FrontIsGone(pushed.order);
      assert pushed.order[1..] == c.order[1..] + [k];
      var once := Cache(pushed.entries - {pushed.order[0]}, pushed.order[1..], c.cap);
      assert Evicted(pushed) == Evicted(once) == once;
    }
  }

  lemma EnsureKeeps(s: Store, k: string)
    requires Coherent(s) && LruOk(s.cache)
    ensures var s' := Ensured(s, k);
            && Coherent(s') && LruOk(s'.cache) && s'.logs == s.logs
            && k in s'.cache.entries && s'.cache.entries[k] == Fold(LogIn(s, k))
  {
    var s' := Ensured(s, k);
    if k in s.cache.entries {
      TouchKeepsLru(s.cache, k);
    } else {
      CatchUpKeepsLru(s.cache, k, LogIn(s, k));
    }
    hide CaughtUp, Touched, LruOk, InOrder, Fold;
  }

  lemma ReadKeeps(s: Store, k: string)
    requires Coherent(s) && LruOk(s.cache)
    ensures var s' := Read(s, k);
            && Coherent(s') && LruOk(s'.cache) && s'.logs == s.logs
            && k in s'.cache.entries && s'.cache.entries[k] == Fold(LogIn(s, k))
  {
    EnsureKeeps(s, k);
    TouchKeepsLru(Ensured(s, k).cache, k);
    hide Ensured, Touched, LruOk, InOrder, Fold;
  }

  lemma MirrorKeeps(c: Cache, k: string, log: Log, ev: Event)
    requires LruOk(c) && (k in c.entries ==> c.entries[k] == Fold(log))
    ensures var c' := Mirror(c, k, Record(NextSeq(log), ev));
            && LruOk(c') && c'.entries.Keys == c.entries.Keys
            && (k in c.entries ==> c'.entries[k] == Fold(Append(log, ev)))
            && (forall j | j in c.entries && j != k :: c'.entries[j] == c.entries[j])
  {
    FoldSnoc(log, Record(NextSeq(log), ev));
  }

  /** Appending to one task's log and mirroring into its entry keeps the store coherent. */
  lemma AppendKeepsCoherent(s: Store, k: string, log: Log, c: Cache)
    requires Coherent(s) && InOrder(log)
    requires c.entries.Keys == s.cache.entries.Keys
    requires k in c.entries ==> c.entries[k] == Fold(log)
    requires forall j | j in c.entries && j != k :: c.entries[j] == s.cache.entries[j]
    ensures Coherent(Store(s.logs[k := log], c))
  {
    hide Fold, InOrder;
    var s' := Store(s.logs[k := log], c);
    forall j ensures InOrder(LogOf(s'.logs, j)) {
      assert InOrder(LogOf(s.logs, j));
    }
    forall j | j in c.entries ensures c.entries[j] == Fold(LogOf(s'.logs, j)) {
      assert j in s.cache.entries;
    }
  }

  lemma AcceptedWriteKeeps(s: Store, k: string, ev: Event)
    requires Coherent(s) && LruOk(s.cache) && Accepts(s, k, ev)
    ensures var s' := Written(s, k, ev);
            && Coherent(s') && LruOk(s'.cache)
            && s'.logs == s.logs[k := Append(LogIn(s, k), ev)]
            && s'.cache.entries.Keys == s.cache.entries.Keys
  {
    var c := Touched(Touched(s.cache, k), k);
    TouchKeepsLru(s.cache, k);
    TouchKeepsLru(Touched(s.cache, k), k);
    AppendInOrder(LogIn(s, k), ev);
    MirrorKeeps(c, k, LogIn(s, k), ev);
    hide Fold, LruOk, Touched, InOrder, ValidScope, ValidPayload, TransitionAllowed;
    AppendKeepsCoherent(s, k, Append(LogIn(s, k), ev), Mirror(c, k, Record(NextSeq(LogIn(s, k)), ev)));
  }

  lemma WriteKeeps(s: Store, k: string, ev: Event)
    requires Coherent(s) && LruOk(s.cache)
    ensures var s' := Written(s, k, ev);
            && Coherent(s') && LruOk(s'.cache)
            && LogIn(s', k) == (if Accepts(s, k, ev) then Append(LogIn(s, k), ev) else LogIn(s, k))
            && (forall j :: j != k ==> LogIn(s', j) == LogIn(s, j))
            && s'.cache.entries.Keys == s.cache.entries.Keys
  {
    if Accepts(s, k, ev) {
      AcceptedWriteKeeps(s, k, ev);
      hide Written, Coherent, LruOk;
    } else {
      TouchKeepsLru(s.cache, k);
      hide Fold, LruOk, Touched, InOrder, ValidScope, ValidPayload, TransitionAllowed;
    }
  }

  lemma {:induction false} MirrorAllKeeps(c: Cache, k: string, log: Log, evs: seq<Event>)
    requires LruOk(c) && (k in c.entries ==> c.entries[k] == Fold(log)) && InOrder(log)
    ensures var c' := MirrorAll(c, k, log, evs);
            && LruOk(c') && c'.entries.Keys == c.entries.Keys && InOrder(AppendAll(log, evs))
            && (k in c.entries ==> c'.entries[k] == Fold(AppendAll(log, evs)))
            && (forall j | j in c.entries && j != k :: c'.entries[j] == c.entries[j])
  {
    if evs != [] {
      var before, ev := evs[..|evs| - 1], evs[|evs| - 1];
      MirrorAllKeeps(c, k, log, before);
      MirrorKeeps(MirrorAll(c, k, log, before), k, AppendAll(log, before), ev);
      AppendInOrder(AppendAll(log, before), ev);
      hide Fold, Mirror, LruOk, InOrder;
    }
  }

  // ---------------------------------------------------------------- runs

  datatype Op =
    | Create(k: string, ev: Event)
    | Query(k: string)
    | Write(k: string, ev: Event)
    | Batch(k: string, evs: seq<Event>)
    | Invalidate(k: string)

  function Apply(s: Store, op: Op): Store {
    match op
    case Create(k, ev) => Created(s, k, ev)
    case Query(k) => Read(s, k)
    case Write(k, ev) => Written(s, k, ev)
    case Batch(k, evs) => Batched(s, k, evs)
    case Invalidate(k) => Dropped(s, k)
  }

  /** A created task gets an id that nobody has used or asked for. */
  predicate Enabled(s: Store, op: Op) {
    op.Create? ==> op.k !in s.logs && op.k !in s.cache.entries
  }

  function RunOps(s: Store, ops: seq<Op>): Store {
    if ops == [] then s else Apply(RunOps(s, ops[..|ops| - 1]), ops[|ops| - 1])
  }

  predicate AllEnabled(s: Store, ops: seq<Op>) {
    ops != [] ==> AllEnabled(s, ops[..|ops| - 1]) && Enabled(RunOps(s, ops[..|ops| - 1]), ops[|ops| - 1])
  }

  /** Every log is numbered from one, without gap. */
  predicate Numbered(log: Log) {
    forall i :: 0 <= i < |log| ==> log[i].seqNo == i + 1
  }

  lemma {:induction false} AppendAllNumbered(log: Log, evs: seq<Event>)
    requires Numbered(log)
    ensures Numbered(AppendAll(log, evs))
  {
    if evs != [] {
      AppendAllNumbered(log, evs[..|evs| - 1]);
    }
  }

  ghost predicate AllNumbered(s: Store) {
    forall k :: Numbered(LogIn(s, k))
  }

  lemma StepKeepsNumbered(s: Store, op: Op)
    requires AllNumbered(s)
    ensures AllNumbered(Apply(s, op))
  {
    forall k ensures Numbered(LogIn(Apply(s, op), k)) {
      assert Numbered(LogIn(s, k)) && Numbered(LogIn(s, op.k));
      if op.Batch? {
        AppendAllNumbered(LogIn(s, op.k), op.evs);
      }
    }
  }

  /** In every run whatever, the numbers of a task's events are one, two, three and so on. */
  lemma {:induction false} RunsAreNumbered(cap: nat, ops: seq<Op>)
    ensures AllNumbered(RunOps(Empty(cap), ops))
  {
    if ops != [] {
      RunsAreNumbered(cap, ops[..|ops| - 1]);
      StepKeepsNumbered(RunOps(Empty(cap), ops[..|ops| - 1]), ops[|ops| - 1]);
      hide Apply;
    }
  }

  lemma StepKeepsCoherent(s: Store, op: Op)
    requires Coherent(s) && LruOk(s.cache) && Enabled(s, op)
    ensures Coherent(Apply(s, op)) && LruOk(Apply(s, op).cache)
  {
    match op {
      case Create(k, ev) => CreateKeepsCoherent(s, k, ev);
      case Query(k) => ReadKeeps(s, k);
      case Write(k, ev) => WriteKeeps(s, k, ev);
      case Batch(k, evs) => BatchKeepsCoherent(s, k, evs);
      case Invalidate(k) => DropKeepsCoherent(s, k);
    }
  }

  lemma CreateKeepsCoherent(s: Store, k: string, ev: Event)
    requires Coherent(s) && LruOk(s.cache) && k !in s.logs && k !in s.cache.entries
    ensures Coherent(Created(s, k, ev)) && LruOk(Created(s, k, ev).cache)
  {
    AppendInOrder(LogIn(s, k), ev);
    AppendKeepsCoherent(s, k, Append(LogIn(s, k), ev), s.cache);
  }

  lemma DropKeepsCoherent(s: Store, k: string)
    requires Coherent(s) && LruOk(s.cache)
    ensures Coherent(Dropped(s, k)) && LruOk(Dropped(s, k).cache)
  {
    InvalidateKeepsLru(s.cache, k);
    hide InOrder, Fold, LruOk;
  }

  lemma BatchKeepsCoherent(s: Store, k: string, evs: seq<Event>)
    requires Coherent(s) && LruOk(s.cache)
    ensures Coherent(Batched(s, k, evs)) && LruOk(Batched(s, k, evs).cache)
  {
    TouchKeepsLru(s.cache, k);
    MirrorAllKeeps(Touched(s.cache, k), k, LogIn(s, k), evs);
    AppendKeepsCoherent(s, k, AppendAll(LogIn(s, k), evs), MirrorAll(Touched(s.cache, k), k, LogIn(s, k), evs));
  }

  /**
   Cache coherence over every run of create, read, guarded write, same-task batch and invalidate:
   whatever was evicted and read again, every cached projection equals the fold of its task's log.
   */
  lemma {:induction false} RunsAreCoherent(cap: nat, ops: seq<Op>)
    requires cap >= 1 && AllEnabled(Empty(cap), ops)
    ensures var s := RunOps(Empty(cap), ops); Coherent(s) && LruOk(s.cache)
  {
    if ops != [] {
      RunsAreCoherent(cap, ops[..|ops| - 1]);
      StepKeepsCoherent(RunOps(Empty(cap), ops[..|ops| - 1]), ops[|ops| - 1]);
    }
  }

  // ---------------------------------------------------------------- guarded runs

  ghost predicate AllGuarded(s: Store) {
    forall k | k in s.logs :: s.logs[k] != [] && Lifecycle.Guarded(s.logs[k])
  }

  ghost predicate NoEmptyLog(s: Store) {
    forall k | k in s.logs :: s.logs[k] != []
  }

  /** A batch whose events, one after the other, could each come next. */
  predicate AdmitsAll(log: Log, evs: seq<Event>) {
    evs != [] ==>
      AdmitsAll(log, evs[..|evs| - 1]) && Lifecycle.GuardAdmits(AppendAll(log, evs[..|evs| - 1]), evs[|evs| - 1])
  }

  lemma {:induction false} GuardedAppendAll(log: Log, evs: seq<Event>)
    requires Lifecycle.Guarded(log)
    ensures Lifecycle.Guarded(AppendAll(log, evs)) <==> AdmitsAll(log, evs)
  {
    if evs != [] {
      GuardedAppendAll(log, evs[..|evs| - 1]);
      Lifecycle.GuardedAppend(AppendAll(log, evs[..|evs| - 1]), evs[|evs| - 1]);
      hide Lifecycle.Guarded, Lifecycle.GuardAdmits, Append;
    }
  }

  /** The operations that keep every log guarded. */
  predicate Sound(s: Store, op: Op) {
    match op
    case Create(k, ev) => ev.etype.TaskCreated?
    case Write(k, ev) => Accepts(s, k, ev) ==> SoundWrite(s, k, ev)
    case Batch(k, evs) => AdmitsAll(LogIn(s, k), evs)
    case _ => true
  }

  /** A known task that is cached, or not created once more; or an unknown task that is created. */
  predicate SoundWrite(s: Store, k: string, ev: Event) {
    if k in s.logs then k in s.cache.entries || !ev.etype.TaskCreated? else ev.etype.TaskCreated?
  }

  lemma OneLogGuarded(s: Store, s': Store, k: string, log: Log)
    requires AllGuarded(s) && s'.logs == s.logs[k := log]
    ensures AllGuarded(s') <==> log != [] && Lifecycle.Guarded(log)
  {
    hide Lifecycle.Guarded;
    assert k in s'.logs && s'.logs[k] == log;
  }

  /** An accepted write keeps every log guarded if and only if it is sound. */
  lemma AcceptedWriteKeepsGuardedIff(s: Store, k: string, ev: Event)
    requires Coherent(s) && LruOk(s.cache) && AllGuarded(s) && Accepts(s, k, ev)
    ensures AllGuarded(Written(s, k, ev)) <==> SoundWrite(s, k, ev)
  {
    AcceptedWriteKeeps(s, k, ev);
    assert k in s.cache.entries ==> s.cache.entries[k] == Fold(LogIn(s, k));
    assert Lifecycle.Guarded(LogIn(s, k)) && (LogIn(s, k) == [] <==> k !in s.logs);
    hide Coherent, LruOk, Written, Lifecycle.Guarded, ValidScope, ValidPayload;
    Lifecycle.WriteKeepsGuardedIff(LogIn(s, k), k in s.cache.entries, ev);
    OneLogGuarded(s, Written(s, k, ev), k, Append(LogIn(s, k), ev));
  }

  lemma StepGuardedIff(s: Store, op: Op)
    requires Coherent(s) && LruOk(s.cache) && AllGuarded(s) && Enabled(s, op)
    ensures AllGuarded(Apply(s, op)) <==> Sound(s, op)
  {
    match op {
      case Create(k, ev) =>
        Lifecycle.GuardedAppend([], ev);
        hide Lifecycle.Guarded, Coherent, LruOk;
        OneLogGuarded(s, Apply(s, op), k, Append([], ev));
      case Write(k, ev) =>
        if Accepts(s, k, ev) {
          AcceptedWriteKeepsGuardedIff(s, k, ev);
          hide *;
        }
      case Batch(k, evs) =>
        GuardedAppendAll(LogIn(s, k), evs);
        hide Lifecycle.Guarded, Coherent, LruOk, AdmitsAll;
        if evs != [] {
          OneLogGuarded(s, Apply(s, op), k, AppendAll(LogIn(s, k), evs));
        }
      case _ =>
    }
  }

  lemma {:induction false} AppendAllExtends(log: Log, evs: seq<Event>)
    ensures log <= AppendAll(log, evs) && |AppendAll(log, evs)| == |log| + |evs|
  {
    if evs != [] {
      AppendAllExtends(log, evs[..|evs| - 1]);
    }
  }

  /** No operation removes a log or shortens one. */
  lemma StepExtendsLogs(s: Store, op: Op)
    requires NoEmptyLog(s) && Enabled(s, op)
    ensures NoEmptyLog(Apply(s, op))
    ensures forall k | k in s.logs :: k in Apply(s, op).logs && s.logs[k] <= Apply(s, op).logs[k]
  {
    hide Touched, Mirror, MirrorAll, CaughtUp, Accepts, ValidScope, ValidPayload, TransitionAllowed;
    if op.Batch? {
      AppendAllExtends(LogIn(s, op.k), op.evs);
      hide AppendAll;
    }
  }

  /** Once a log is not guarded, no later operation mends it. */
  lemma StepMendsNothing(s: Store, op: Op)
    requires NoEmptyLog(s) && Enabled(s, op) && AllGuarded(Apply(s, op))
    ensures AllGuarded(s)
  {
    StepExtendsLogs(s, op);
    hide Apply;
    forall k | k in s.logs ensures Lifecycle.Guarded(s.logs[k]) {
      var later := Apply(s, op).logs[k];
      Lifecycle.GuardedPrefix(later, |s.logs[k]|);
      assert later[..|s.logs[k]|] == s.logs[k];
    }
  }

  predicate AllSound(s: Store, ops: seq<Op>) {
    ops != [] ==> AllSound(s, ops[..|ops| - 1]) && Sound(RunOps(s, ops[..|ops| - 1]), ops[|ops| - 1])
  }

  /**
   A run leaves every task's log one that the lifecycle lemmas speak about if and only if each of its
   operations is sound.
   */
  lemma {:induction false} RunsAreGuardedIff(cap: nat, ops: seq<Op>)
    requires cap >= 1 && AllEnabled(Empty(cap), ops)
    ensures NoEmptyLog(RunOps(Empty(cap), ops))
    ensures AllGuarded(RunOps(Empty(cap), ops)) <==> AllSound(Empty(cap), ops)
  {
    if ops != [] {
      var before, op := ops[..|ops| - 1], ops[|ops| - 1];
      var s := RunOps(Empty(cap), before);
      RunsAreGuardedIff(cap, before);
      RunsAreCoherent(cap, before);
      hide Coherent, LruOk, AllGuarded, NoEmptyLog, Apply, Sound, Enabled, Empty;
      StepExtendsLogs(s, op);
      if AllGuarded(s) {
        StepGuardedIff(s, op);
      }
      if AllGuarded(Apply(s, op)) {
        StepMendsNothing(s, op);
      }
    }
  }

  /** Tasks are created by their first event, and no later write repeats `task_created` or uses the batch path. */
  predicate Disciplined(s: Store, op: Op) {
    match op
    case Create(k, ev) => ev.etype.TaskCreated?
    case Write(k, ev) => k in s.logs && !ev.etype.TaskCreated?
    case Batch(_, _) => false
    case _ => true
  }

  predicate AllDisciplined(s: Store, ops: seq<Op>) {
    ops != [] ==> AllDisciplined(s, ops[..|ops| - 1]) && Disciplined(RunOps(s, ops[..|ops| - 1]), ops[|ops| - 1])
  }

  lemma {:induction false} DisciplinedIsSound(s: Store, ops: seq<Op>)
    requires AllDisciplined(s, ops)
    ensures AllSound(s, ops)
  {
    if ops != [] {
      DisciplinedIsSound(s, ops[..|ops| - 1]);
      hide RunOps, Accepts, AdmitsAll;
    }
  }

  /** In particular runs that create each task first, and then only write it past the guard, are guarded. */
  lemma RunsAreGuarded(cap: nat, ops: seq<Op>)
    requires cap >= 1 && AllEnabled(Empty(cap), ops) && AllDisciplined(Empty(cap), ops)
    ensures AllGuarded(RunOps(Empty(cap), ops))
  {
    RunsAreGuardedIff(cap, ops);
    DisciplinedIsSound(Empty(cap), ops);
  }

  function BareEvent(t: EventType): Event { Event(t, None, None, EMPTY_PAYLOAD) }

  lemma RunOfTwo(s: Store, a: Op, b: Op)
    ensures RunOps(s, [a]) == Apply(s, a)
    ensures RunOps(s, [a, b]) == Apply(Apply(s, a), b)
    ensures AllEnabled(s, [a, b]) <==> Enabled(s, a) && Enabled(Apply(s, a), b)
  {
    hide Apply, Enabled;
    assert [a][..0] == [] && [a, b][..1] == [a];
    assert RunOps(s, []) == s && AllEnabled(s, []);
    assert AllEnabled(s, [a]) <==> Enabled(s, a);
  }

  /** Reading an unknown task and then marking it ready is a run that leaves a log without `task_created`. */
  lemma ReadThenReadyBreaksGuard(cap: nat, k: string)
    requires cap >= 1
    ensures var ops := [Query(k), Write(k, BareEvent(TaskReady))];
            && AllEnabled(Empty(cap), ops)
            && LogIn(RunOps(Empty(cap), ops), k) == [Record(1, BareEvent(TaskReady))]
            && !AllGuarded(RunOps(Empty(cap), ops))
  {
    var s0, ev := Empty(cap), BareEvent(TaskReady);
    var s1 := Read(s0, k);
    RunOfTwo(s0, Query(k), Write(k, ev));
    RunsAreCoherent(cap, []);
    ReadKeeps(s0, k);
    Lifecycle.FirstEventAdmittedIff(TaskReady);
    assert CachedState(s1, k) == Some(Fold([]).state);
    assert AllGuarded(s1);
    assert Accepts(s1, k, ev);
    hide Fold, Coherent, LruOk, Read, Lifecycle.Guarded;
    AcceptedWriteKeeps(s1, k, ev);
    AcceptedWriteKeepsGuardedIff(s1, k, ev);
  }

  /** Creating a task and then, before any read has cached it, creating it once more is such a run too. */
  lemma SecondCreateBreaksGuard(cap: nat, k: string)
    requires cap >= 1
    ensures var ops := [Create(k, BareEvent(TaskCreated)), Write(k, BareEvent(TaskCreated))];
            && AllEnabled(Empty(cap), ops)
            && |LogIn(RunOps(Empty(cap), ops), k)| == 2
            && !AllGuarded(RunOps(Empty(cap), ops))
  {
    var s0, ev := Empty(cap), BareEvent(TaskCreated);
    var s1 := Created(s0, k, ev);
    RunOfTwo(s0, Create(k, ev), Write(k, ev));
    RunsAreCoherent(cap, []);
    CreateKeepsCoherent(s0, k, ev);
    Lifecycle.GuardedAppend([], ev);
    assert Accepts(s1, k, ev);
    hide Fold, Coherent, LruOk, Lifecycle.Guarded;
    AcceptedWriteKeeps(s1, k, ev);
    AcceptedWriteKeepsGuardedIff(s1, k, ev);
  }

  // ---------------------------------------------------------------- recency

  /** One more than the position of the last use of `k`; zero when it was never used. */
  function LastUse(history: seq<string>, k: string): nat {
    if history == [] then 0
    else if history[|history| - 1] == k then |history|
    else LastUse(history[..|history| - 1], k)
  }

  /** The access order is the order of last use. */
  ghost predicate Recent(c: Cache, history: seq<string>) {
    forall i, j :: 0 <= i < j < |c.order| ==> LastUse(history, c.order[i]) < LastUse(history, c.order[j])
  }

  lemma {:induction false} LastUseBound(history: seq<string>, k: string)
    ensures LastUse(history, k) <= |history|
  {
    if history != [] {
      LastUseBound(history[..|history| - 1], k);
    }
  }

  lemma LastUseSnoc(history: seq<string>, k: string, x: string)
    ensures LastUse(history + [k], x) == if x == k then |history| + 1 else LastUse(history, x)
  {
    assert (history + [k])[..|history|] == history;
  }

  lemma PushKeepsRecent(order: seq<string>, history: seq<string>, k: string, cap: nat)
    requires Recent(Cache(map[], order, cap), history) && k !in order
    ensures Recent(Cache(map[], order + [k], cap), history + [k])
  {
    var pushed := order + [k];
    forall i, j | 0 <= i < j < |pushed| ensures LastUse(history + [k], pushed[i]) < LastUse(history + [k], pushed[j]) {
      LastUseSnoc(history, k, pushed[i]);
      LastUseSnoc(history, k, pushed[j]);
      LastUseBound(history, pushed[i]);
      assert pushed[i] == order[i];
    }
  }

  lemma {:induction false} WithoutKeepsRecent(order: seq<string>, history: seq<string>, k: string, cap: nat)
    requires Recent(Cache(map[], order, cap), history)
    ensures Recent(Cache(map[], Without(order, k), cap), history)
  {
    if order != [] {
      var r := Without(order[1..], k);
      assert Recent(Cache(map[], order[1..], cap), history) by {
        assert forall i :: 0 <= i < |order[1..]| ==> order[1..][i] == order[i + 1];
      }
      WithoutKeepsRecent(order[1..], history, k, cap);
      forall j | 0 <= j < |r| ensures LastUse(history, order[0]) < LastUse(history, r[j]) {
        assert r[j] in order[1..];
        var m :| 0 <= m < |order[1..]| && order[1..][m] == r[j];
        assert order[m + 1] == r[j];
      }
    }
  }

  /** Using a cached task, or reading in a missed one, keeps the order by last use. */
  lemma UseKeepsRecent(c: Cache, history: seq<string>, k: string, log: Log)
    requires LruOk(c) && Recent(c, history)
    ensures k in c.entries ==> Recent(Touched(c, k), history + [k])
    ensures k !in c.entries ==> Recent(CaughtUp(c, k, log), history + [k])
  {
    assert Recent(Cache(map[], c.order, c.cap), history);
    if k in c.entries {
      WithoutKeepsRecent(c.order, history, k, c.cap);
      PushKeepsRecent(Without(c.order, k), history, k, c.cap);
    } else {
      PushKeepsRecent(c.order, history, k, c.cap);
      CatchUpKeepsLru(c, k, log);
      assert |c.order| >= c.cap ==> c.order[1..] + [k] == (c.order + [k])[1..];
    }
  }

  /** Reading in a task when the cache is full removes exactly the entry that was used longest ago. */
  lemma EvictsLeastRecentlyUsed(c: Cache, history: seq<string>, k: string, log: Log)
    requires LruOk(c) && Recent(c, history) && k !in c.entries && |c.order| == c.cap
    ensures var victim := c.order[0];
            && CaughtUp(c, k, log).entries.Keys == c.entries.Keys - {victim} + {k}
            && (forall j | j in c.entries && j != victim :: LastUse(history, victim) < LastUse(history, j))
  {
    CatchUpKeepsLru(c, k, log);
    hide CaughtUp, LastUse;
    assert c.order[0] in c.order;
    forall j | j in c.entries && j != c.order[0] ensures LastUse(history, c.order[0]) < LastUse(history, j) {
      var i :| 0 <= i < |c.order| && c.order[i] == j;
    }
  }

  /** The cache hits and read-ins of one operation. */
  function UsesOf(s: Store, op: Op): seq<string> {
    match op
    case Create(_, _) => []
    case Query(k) => [k, k]
    case Write(k, ev) =>
      if k !in s.cache.entries || !ValidScope(ev) || !ValidPayload(ev) then []
      else if Accepts(s, k, ev) then [k, k] else [k]
    case Batch(k, evs) => if k in s.cache.entries && evs != [] then [k] else []
    case Invalidate(_) => []
  }

  function HistoryOf(s: Store, ops: seq<Op>): seq<string> {
    if ops == [] then []
    else HistoryOf(s, ops[..|ops| - 1]) + UsesOf(RunOps(s, ops[..|ops| - 1]), ops[|ops| - 1])
  }

  lemma RecentByOrder(c: Cache, d: Cache, history: seq<string>)
    requires c.order == d.order && Recent(c, history)
    ensures Recent(d, history)
  {
  }

  lemma TouchTwiceRecent(c: Cache, history: seq<string>, k: string)
    requires LruOk(c) && Recent(c, history) && k in c.entries
    ensures Recent(Touched(c, k), history + [k])
    ensures Recent(Touched(Touched(c, k), k), history + [k, k])
  {
    hide LruOk, Recent, Touched;
    UseKeepsRecent(c, history, k, []);
    TouchKeepsLru(c, k);
    UseKeepsRecent(Touched(c, k), history + [k], k, []);
    assert history + [k] + [k] == history + [k, k];
  }

  lemma {:induction false} MirrorAllOrder(c: Cache, k: string, log: Log, evs: seq<Event>)
    ensures MirrorAll(c, k, log, evs).order == c.order
  {
    if evs != [] {
      MirrorAllOrder(c, k, log, evs[..|evs| - 1]);
    }
  }

  lemma QueryKeepsRecent(s: Store, history: seq<string>, k: string)
    requires LruOk(s.cache) && Coherent(s) && Recent(s.cache, history)
    ensures Recent(Read(s, k).cache, history + [k, k])
  {
    EnsureKeeps(s, k);
    UseKeepsRecent(s.cache, history, k, LogIn(s, k));
    var e := Ensured(s, k);
    assert Recent(e.cache, history + [k]);
    hide LruOk, Recent, Coherent, Ensured;
    UseKeepsRecent(e.cache, history + [k], k, []);
    assert history + [k] + [k] == history + [k, k];
  }

  lemma WriteKeepsRecent(s: Store, history: seq<string>, k: string, ev: Event)
    requires LruOk(s.cache) && Recent(s.cache, history)
    ensures Recent(Written(s, k, ev).cache, history + UsesOf(s, Write(k, ev)))
  {
    assert history + [] == history;
    if k in s.cache.entries {
      TouchTwiceRecent(s.cache, history, k);
      hide LruOk, Recent, Touched, ValidScope, ValidPayload, TransitionAllowed;
      if Accepts(s, k, ev) {
        RecentByOrder(Touched(Touched(s.cache, k), k), Written(s, k, ev).cache, history + [k, k]);
      }
    } else {
      RecentByOrder(s.cache, Written(s, k, ev).cache, history);
    }
  }

  lemma BatchKeepsRecent(s: Store, history: seq<string>, k: string, evs: seq<Event>)
    requires LruOk(s.cache) && Recent(s.cache, history)
    ensures Recent(Batched(s, k, evs).cache, history + UsesOf(s, Batch(k, evs)))
  {
    assert history + [] == history;
    MirrorAllOrder(Touched(s.cache, k), k, LogIn(s, k), evs);
    if k in s.cache.entries {
      TouchTwiceRecent(s.cache, history, k);
      RecentByOrder(Touched(s.cache, k), MirrorAll(Touched(s.cache, k), k, LogIn(s, k), evs), history + [k]);
    } else {
      RecentByOrder(s.cache, MirrorAll(Touched(s.cache, k), k, LogIn(s, k), evs), history);
    }
    hide LruOk, Recent, MirrorAll, AppendAll;
  }

  lemma StepKeepsRecent(s: Store, history: seq<string>, op: Op)
    requires LruOk(s.cache) && Coherent(s) && Recent(s.cache, history)
    ensures Recent(Apply(s, op).cache, history + UsesOf(s, op))
  {
    hide LruOk, Coherent, Recent, Written, Batched, Read;
    assert history + [] == history;
    match op {
      case Create(_, _) => RecentByOrder(s.cache, Apply(s, op).cache, history);
      case Query(k) => QueryKeepsRecent(s, history, k);
      case Write(k, ev) => WriteKeepsRecent(s, history, k, ev);
      case Batch(k, evs) => BatchKeepsRecent(s, history, k, evs);
      case Invalidate(k) =>
        RecentByOrder(s.cache, Cache(map[], s.cache.order, s.cache.cap), history);
        WithoutKeepsRecent(s.cache.order, history, k, s.cache.cap);
        RecentByOrder(Cache(map[], Without(s.cache.order, k), s.cache.cap), Apply(s, op).cache, history);
    }
  }

  /** In every run the access order is the order of last use, so an eviction removes the least recently used task. */
  lemma {:induction false} RunsAreRecent(cap: nat, ops: seq<Op>)
    requires cap >= 1 && AllEnabled(Empty(cap), ops)
    ensures Recent(RunOps(Empty(cap), ops).cache, HistoryOf(Empty(cap), ops))
  {
    if ops != [] {
      var before := ops[..|ops| - 1];
      RunsAreRecent(cap, before);
      RunsAreCoherent(cap, before);
      StepKeepsRecent(RunOps(Empty(cap), before), HistoryOf(Empty(cap), before), ops[|ops| - 1]);
    }
  }
}
