/** The least-recently-used cache of projections. */
module ProjectionCache {
  import opened Wrappers
  import opened Events
  import opened Projection

  /** The cache as a value: the projections and the access order, oldest first. */
  datatype Cache = Cache(entries: map<string, Proj>, order: seq<string>, cap: nat)

  function Without(order: seq<string>, k: string): (r: seq<string>)
    ensures k !in r
    ensures forall x :: x in r <==> x in order && x != k
    ensures |r| <= |order| && (k in order ==> |r| < |order|)
  {
    if order == [] then []
    else if order[0] == k then Without(order[1..], k)
    else [order[0]] + Without(order[1..], k)
  }

  /** A hit moves the task to the young end. */
  function Touched(c: Cache, k: string): Cache {
    if k in c.entries then c.(order := Without(c.order, k) + [k]) else c
  }

  function Invalidated(c: Cache, k: string): Cache {
    c.(entries := c.entries - {k}, order := Without(c.order, k))
  }

  function ApplyAll(p: Proj, log: Log): Proj {
    if log == [] then p else ApplyRecord(ApplyAll(p, log[..|log| - 1]), log[|log| - 1])
  }

  lemma {:induction false} ApplyAllFromNew(log: Log)
    ensures ApplyAll(NEW_PROJ, log) == Fold(log)
  {
    if log != [] {
      ApplyAllFromNew(log[..|log| - 1]);
    }
  }

  function Evicted(c: Cache): Cache
    decreases |c.order|
  {
    if |c.order| > c.cap then Evicted(c.(entries := c.entries - {c.order[0]}, order := c.order[1..])) else c
  }

  /** Catching up replays the log onto the entry, created empty on a miss, and then makes room. */
  function CaughtUp(c: Cache, k: string, log: Log): Cache {
    Evicted(c.(entries := c.entries[k := ApplyAll(EntryOr(c.entries, k), log)], order := c.order + [k]))
  }

  function EntryOr(entries: map<string, Proj>, k: string): Proj {
    if k in entries then entries[k] else NEW_PROJ
  }

  class LruCache {
    var entries: map<string, TaskProjection>
    var order: seq<string>
    const cap: nat

    ghost function Objects(): set<object>
      reads this`entries
    {
      set k | k in entries :: entries[k]
    }

    /** No two tasks share a projection object. */
    ghost predicate Valid()
      reads this`entries
    {
      forall j, k | j in entries && k in entries && j != k :: entries[j] != entries[k]
    }

    ghost function Projections(): map<string, Proj>
      reads this`entries, Objects()
    {
      map k | k in entries :: entries[k].View()
    }

    ghost function View(): Cache
      reads this, Objects()
    {
      Cache(Projections(), order, cap)
    }

    constructor (capacity: nat)
      ensures Valid() && View() == Cache(map[], [], capacity) && Objects() == {}
    {
      entries, order, cap := map[], [], capacity;
    }

    method Get(k: string) returns (r: TaskProjection?)
      requires Valid()
      modifies this`order
      ensures View() == Touched(old(View()), k)
      ensures Projections() == old(Projections())
      ensures k !in entries ==> order == old(order)
      ensures if k in entries then r == entries[k] else r == null
    {
      if k in entries {
        order := Without(order, k) + [k];
        r := entries[k];
      } else {
        r := null;
      }
    }

    method Invalidate(k: string)
      requires Valid()
      modifies this
      ensures Valid() && Objects() <= old(Objects())
      ensures View() == Invalidated(old(View()), k)
    {
      Drop(k);
      order := Without(order, k);
    }

    method Drop(k: string)
      requires Valid()
      modifies this`entries
      ensures Valid() && Objects() <= old(Objects())
      ensures Projections() == old(Projections()) - {k}
    {
      hide TaskProjection.View;
      entries := entries - {k};
    }

    /** Applying a record to one cached task leaves the others alone. */
    method ApplyTo(k: string, r: Record)
      requires Valid() && k in entries
      modifies Objects()
      ensures Projections() == old(Projections())[k := ApplyRecord(old(Projections())[k], r)]
    {
      hide ApplyRecord, TaskProjection.View;
      entries[k].Apply(r);
      assert forall j | j in entries && j != k :: entries[j].View() == old(entries[j].View());
    }

    method EnsureEntry(k: string)
      requires Valid()
      modifies this`entries
      ensures Valid() && fresh(Objects() - old(Objects())) && k in entries
      ensures Projections() == old(Projections())[k := EntryOr(old(Projections()), k)]
    {
      hide TaskProjection.View;
      assert k in entries ==> Projections()[k := Projections()[k]] == Projections();
      if k !in entries {
        ghost var before := entries;
        var p := new TaskProjection();
        entries := entries[k := p];
        assert forall j | j in before :: entries[j] == before[j] && entries[j] != p;
        assert forall j | j in before :: entries[j].View() == old(before[j].View());
      }
    }

    method Replay(k: string, log: Log)
      requires Valid() && k in entries
      modifies Objects()
      ensures Projections() == old(Projections())[k := ApplyAll(old(Projections())[k], log)]
    {
      hide ApplyRecord, TaskProjection.View;
      ghost var before := Projections();
      assert before[k := before[k]] == before;
      for i := 0 to |log|
        invariant Projections() == before[k := ApplyAll(before[k], log[..i])]
      {
        assert log[..i + 1][..i] == log[..i];
        ApplyTo(k, log[i]);
      }
      assert log[..|log|] == log;
    }

    method Refill(k: string, log: Log)
      requires Valid()
      modifies this`entries, Objects()
      ensures Valid() && fresh(Objects() - old(Objects()))
      ensures Projections() == old(Projections())[k := ApplyAll(EntryOr(old(Projections()), k), log)]
    {
      hide ApplyAll, TaskProjection.View;
      EnsureEntry(k);
      Replay(k, log);
    }

    method CatchUp(k: string, log: Log)
      requires Valid()
      modifies this, Objects()
      ensures Valid() && fresh(Objects() - old(Objects()))
      ensures View() == CaughtUp(old(View()), k, log)
    {
      hide ApplyAll, Evicted, Projections, EntryOr;
      Refill(k, log);
      order := order + [k];
      MakeRoom();
    }

    method MakeRoom()
      requires Valid()
      modifies this
      ensures Valid() && Objects() <= old(Objects())
      ensures View() == Evicted(old(View()))
    {
      while |order| > cap
        invariant Valid() && Objects() <= old(Objects())
        invariant Evicted(View()) == Evicted(old(View()))
        decreases |order|
      {
        var oldest := order[0];
        order := order[1..];
        Drop(oldest);
      }
    }
  }
}
