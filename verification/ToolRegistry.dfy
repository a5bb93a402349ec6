/** The registry that routes a tool name to the adapter that owns it. */
module ToolRegistry {
  import opened Wrappers
  import opened ToolCatalog

  /** An adapter, with the tool names it declares; they do not change. */
  datatype Adapter = Adapter(name: string, tools: seq<string>)

  datatype DupTool = DupTool(tool: string, existing: string)

  /** The declared names of all adapters, in registration order. */
  function Listed(adapters: seq<Adapter>): seq<string> {
    if adapters == [] then [] else Listed(adapters[..|adapters| - 1]) + adapters[|adapters| - 1].tools
  }

  predicate Owns(adapters: seq<Adapter>, i: int, tool: string) {
    0 <= i < |adapters| && tool in adapters[i].tools
  }

  predicate Indexed(index: map<string, nat>, tool: string) { tool in index }

  class Registry {
    var adapters: seq<Adapter>
    var index: map<string, nat>

    /** The index knows exactly the declared names, and points at the one adapter that declares each. */
    ghost predicate Valid()
      reads this
    {
      && (forall tool | Indexed(index, tool) :: Owns(adapters, index[tool], tool))
      && (forall i, tool :: Owns(adapters, i, tool) ==> Indexed(index, tool) && index[tool] == i)
    }

    constructor ()
      ensures Valid() && adapters == []
    {
      adapters, index := [], map[];
    }

    /**
     Registers an adapter unless another one owns one of its names; then nothing changes, and the error
     names the first such tool and its owner.
     */
    method Register(a: Adapter) returns (r: Result<(), DupTool>)
      requires Valid()
      modifies this
      ensures Valid()
      ensures r.Ok? <==> forall tool | tool in a.tools :: tool !in Listed(old(adapters))
      ensures r.Ok? ==> adapters == old(adapters) + [a]
      ensures r.Err? ==> adapters == old(adapters) && index == old(index)
      ensures r.Err? ==> exists i, j :: 0 <= i < |a.tools| && (forall m :: 0 <= m < i ==> a.tools[m] !in Listed(adapters))
                           && Owns(adapters, j, a.tools[i]) && r.error == DupTool(a.tools[i], adapters[j].name)
    {
      hide Listed;
      forall tool ensures tool in Listed(adapters) <==> Indexed(index, tool) {
        ListedIffOwned(adapters, tool);
      }
      for i := 0 to |a.tools|
        invariant forall m :: 0 <= m < i ==> !Indexed(index, a.tools[m])
      {
        if a.tools[i] in index {
          assert Indexed(index, a.tools[i]) && a.tools[i] in a.tools;
          assert Owns(adapters, index[a.tools[i]], a.tools[i]);
          return Err(DupTool(a.tools[i], adapters[index[a.tools[i]]].name));
        }
      }
      var n := |adapters|;
      Insert(a.tools, n);
      adapters := adapters + [a];
      assert forall i, tool :: Owns(old(adapters), i, tool) <==> i != n && Owns(adapters, i, tool);
      r := Ok(());
    }

    /** Points every name of an adapter at its position. */
    method Insert(tools: seq<string>, n: nat)
      modifies this`index
      ensures index == old(index) + map tool | tool in tools :: n
    {
      for i := 0 to |tools|
        invariant index == old(index) + map tool | tool in tools[..i] :: n
      {
        assert tools[..i + 1] == tools[..i] + [tools[i]];
        index := index[tools[i] := n];
      }
      assert tools[..|tools|] == tools;
    }

    method List() returns (names: seq<string>)
      ensures names == Listed(adapters)
    {
      names := [];
      for i := 0 to |adapters|
        invariant names == Listed(adapters[..i])
      {
        assert adapters[..i + 1][..i] == adapters[..i];
        names := names + adapters[i].tools;
      }
      assert adapters[..|adapters|] == adapters;
    }

    /** Finds an adapter exactly for the listed names, and then the only one that declares the name. */
    method Find(tool: string) returns (r: Option<Adapter>)
      requires Valid()
      ensures r.Some? <==> tool in Listed(adapters)
      ensures r.Some? ==> exists i :: Owns(adapters, i, tool) && r.value == adapters[i]
                            && forall j :: Owns(adapters, j, tool) ==> j == i
    {
      hide Listed;
      ListedIffOwned(adapters, tool);
      if tool in index {
        assert Indexed(index, tool);
        r := Some(adapters[index[tool]]);
      } else {
        assert !Indexed(index, tool);
        r := None;
      }
    }
  }

  lemma {:induction false} ListedIffOwned(adapters: seq<Adapter>, tool: string)
    ensures tool in Listed(adapters) <==> exists i :: Owns(adapters, i, tool)
  {
    if adapters != [] {
      var n := |adapters| - 1;
      ListedIffOwned(adapters[..n], tool);
      assert forall i :: Owns(adapters[..n], i, tool) <==> i != n && Owns(adapters, i, tool);
      assert tool in adapters[n].tools <==> Owns(adapters, n, tool);
    }
  }

  // ---------------------------------------------------------------- no name twice

  ghost predicate OwnersUnique(adapters: seq<Adapter>) {
    forall i, j, tool :: Owns(adapters, i, tool) && Owns(adapters, j, tool) ==> i == j
  }

  lemma ConcatDistinct(a: seq<string>, b: seq<string>)
    ensures DistinctNames(a + b) <==> DistinctNames(a) && DistinctNames(b) && forall x | x in b :: x !in a
  {
    var all := a + b;
    if DistinctNames(all) {
      assert forall i :: 0 <= i < |a| ==> all[i] == a[i];
      forall i, j | 0 <= i < j < |b| ensures b[i] != b[j] {
        assert all[|a| + i] != all[|a| + j];
      }
      forall x | x in b ensures x !in a {
        var j :| 0 <= j < |b| && b[j] == x;
        assert forall i :: 0 <= i < |a| ==> all[i] != all[|a| + j];
      }
    }
    if DistinctNames(a) && DistinctNames(b) && forall x | x in b :: x !in a {
      forall i, j | 0 <= i < j < |all| ensures all[i] != all[j] {
        if i < |a| <= j {
          assert b[j - |a|] in b && a[i] in a;
        }
      }
    }
  }

  /** The last adapter's names are not listed by the others. */
  lemma LastIsApart(before: seq<Adapter>, last: Adapter)
    requires OwnersUnique(before + [last])
    ensures OwnersUnique(before)
    ensures forall x | x in last.tools :: x !in Listed(before)
  {
    var all := before + [last];
    assert forall i, tool :: Owns(before, i, tool) ==> Owns(all, i, tool);
    hide Listed;
    forall x | x in last.tools ensures x !in Listed(before) {
      ListedIffOwned(before, x);
      assert Owns(all, |before|, x);
    }
  }

  /** A registry lists no name twice if and only if no adapter declares one twice. */
  lemma {:induction false} ListDistinctIff(adapters: seq<Adapter>)
    requires OwnersUnique(adapters)
    ensures DistinctNames(Listed(adapters)) <==> forall i :: 0 <= i < |adapters| ==> DistinctNames(adapters[i].tools)
  {
    if adapters != [] {
      var before, last := adapters[..|adapters| - 1], adapters[|adapters| - 1];
      assert adapters == before + [last];
      LastIsApart(before, last);
      ListDistinctIff(before);
      ConcatDistinct(Listed(before), last.tools);
      hide DistinctNames, OwnersUnique;
      assert forall i :: 0 <= i < |before| ==> before[i] == adapters[i];
    }
  }

  // ---------------------------------------------------------------- building the registry

  /** The sandbox adapter declares the builtins and the extras that do not collide with one. */
  function SandboxTools(builtins: seq<string>, extras: seq<ToolSpec>): seq<string> {
    builtins + Names(FilterCollisions(extras, Reserved(builtins)))
  }

  function Reserved(builtins: seq<string>): set<string> {
    set b | b in builtins
  }

  lemma SandboxDistinct(builtins: seq<string>, extras: seq<ToolSpec>)
    requires DistinctNames(builtins) && DistinctNames(Names(extras))
    ensures DistinctNames(SandboxTools(builtins, extras))
  {
    var reserved := Reserved(builtins);
    FilteredStayDistinct(extras, reserved);
    ConcatDistinct(builtins, Names(FilterCollisions(extras, reserved)));
    forall x | x in Names(FilterCollisions(extras, reserved)) ensures x !in builtins {
      FilteredNames(extras, reserved, x);
    }
    hide DistinctNames, Names, FilterCollisions;
  }

  /** The names that are not reserved, in order. */
  function Unreserved(names: seq<string>, reserved: set<string>): seq<string> {
    if names == [] then []
    else if names[0] in reserved then Unreserved(names[1..], reserved)
    else [names[0]] + Unreserved(names[1..], reserved)
  }

  lemma {:induction false} FilteredNameList(extras: seq<ToolSpec>, reserved: set<string>)
    ensures Names(FilterCollisions(extras, reserved)) == Unreserved(Names(extras), reserved)
  {
    if extras != [] {
      FilteredNameList(extras[1..], reserved);
      FilterStep(extras, reserved);
      hide Names, FilterCollisions;
    }
  }

  /** The extras file loads. */
  predicate Loads(raws: seq<RawTool>) {
    DistinctNames(RawNames(raws)) && forall i :: 0 <= i < |raws| ==> Acceptable(raws[i])
  }

  /** The tool names of the sandbox adapter: the builtins and the extras' other names, if the file loads. */
  function SandboxNames(builtins: seq<string>, raws: seq<RawTool>): seq<string> {
    builtins + Unreserved(if Loads(raws) then RawNames(raws) else [], Reserved(builtins))
  }

  predicate Fits(adapters: seq<Adapter>, a: Adapter) {
    forall tool | tool in a.tools :: tool !in Listed(adapters)
  }

  /** Of the adapters that are offered, each one is kept that declares no name listed before it. */
  function Kept(adapters: seq<Adapter>, offered: seq<Adapter>): seq<Adapter> {
    if offered == [] then adapters
    else
      var before, a := Kept(adapters, offered[..|offered| - 1]), offered[|offered| - 1];
      if Fits(before, a) then before + [a] else before
  }

  /**
   Loads the extras (none when the file is refused), registers the sandbox adapter and then each HTTP
   adapter, skipping one that collides. With distinct builtins and adapters that do not repeat their
   own names, no name is listed twice.
   */
  method BuildRegistry(builtins: seq<string>, raws: seq<RawTool>, https: seq<Adapter>) returns (reg: Registry)
    ensures fresh(reg) && reg.Valid()
    ensures reg.adapters == Kept([Adapter("sandbox", SandboxNames(builtins, raws))], https)
    ensures DistinctNames(builtins) && (forall i :: 0 <= i < |https| ==> DistinctNames(https[i].tools))
            ==> DistinctNames(Listed(reg.adapters))
    ensures reg.adapters != [] && builtins <= reg.adapters[0].tools
  {
    hide DistinctNames, Acceptable, Loaded, Listed;
    var loaded := ParseExtraCatalog(raws);
    var extras := match loaded case Ok(specs) => specs case Err(_) => [];
    var sandbox := LoadSandbox(builtins, raws, extras);
    NothingListed();
    reg := new Registry();
    var first := reg.Register(sandbox);
    for i := 0 to |https|
      invariant fresh(reg) && reg.Valid()
      invariant reg.adapters == Kept([sandbox], https[..i])
    {
      assert https[..i + 1][..i] == https[..i];
      var _ := reg.Register(https[i]);
    }
    assert https[..|https|] == https;
    ListDistinctIff(reg.adapters);
    KeptFrom([sandbox], https);
  }

  method LoadSandbox(builtins: seq<string>, ghost raws: seq<RawTool>, extras: seq<ToolSpec>) returns (sandbox: Adapter)
    requires Names(extras) == if Loads(raws) then RawNames(raws) else []
    ensures sandbox == Adapter("sandbox", SandboxNames(builtins, raws))
    ensures DistinctNames(builtins) ==> DistinctNames(sandbox.tools)
  {
    FilteredNameList(extras, Reserved(builtins));
    if DistinctNames(builtins) {
      SandboxDistinct(builtins, extras);
    }
    hide Names, FilterCollisions, Unreserved;
    sandbox := Adapter("sandbox", SandboxTools(builtins, extras));
  }

  lemma {:induction false} KeptFrom(adapters: seq<Adapter>, offered: seq<Adapter>)
    ensures adapters <= Kept(adapters, offered)
    ensures forall i :: 0 <= i < |Kept(adapters, offered)| ==>
              Kept(adapters, offered)[i] in adapters || Kept(adapters, offered)[i] in offered
  {
    if offered != [] {
      KeptFrom(adapters, offered[..|offered| - 1]);
      assert offered == offered[..|offered| - 1] + [offered[|offered| - 1]];
      hide Fits;
    }
  }

  lemma NothingListed()
    ensures Listed([]) == []
  {
  }
}
