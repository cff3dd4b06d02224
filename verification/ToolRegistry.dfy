/** `RegisterTools`: the sources, the index kept beside them, and the snapshots that delay cleanup. */
module ToolRegistry {
  import opened Text
  import opened ToolCatalog
  import opened TurnLeases

  class RegisterTools {
    var sources: Sources
    var flatMap: Source
    var flatTools: seq<Tool>
    var leases: Leases

    /** The index is the flattening of the sources. */
    ghost predicate Valid()
      reads this`sources, this`flatMap, this`flatTools
    {
      WellNamed(sources) && IsFlat(sources, Order(sources), Flat(flatMap, flatTools))
    }

    constructor ()
      ensures Valid() && sources == map[LOCAL := map[]] && leases == NoLeases()
    {
      sources := map[LOCAL := map[]];
      flatMap, flatTools := map[], [];
      leases := NoLeases();
      new;
      EmptyLocalIsFlat();
    }

    method Register(tool: Option<Tool>)
      requires Valid()
      modifies this`sources, this`flatMap, this`flatTools
      ensures Valid()
      ensures sources == if tool.None? then old(sources)
                         else var s := Ensure(old(sources)); s[LOCAL := s[LOCAL][tool.value.name := tool.value]]
    {
      if tool.None? {
        return;
      }
      EnsureLocked();
      var local := sources[LOCAL];
      sources := sources[LOCAL := local[tool.value.name := tool.value]];
      Rebuild();
    }

    method RegisterSource(source: string, tools: seq<Option<Tool>>)
      requires Valid()
      modifies this`sources, this`flatMap, this`flatTools
      ensures Valid()
      ensures sources == Ensure(old(sources))[Effective(source) := ByName(Present(tools))]
      ensures Registers(old(sources), if source == "" then LOCAL else source, tools, sources)
    {
      var name := source;
      if name == "" {
        name := LOCAL;
      }
      RegisteringKeepsNames(sources, name, Present(tools));
      RegisteredRegisters(sources, name, tools);
      hide *;
      EnsureLocked();
      var next := Collect(tools);
      sources := sources[name := next];
      Rebuild();
    }

    /** The tools that are there, a later one of a name in place of an earlier one. */
    static method Collect(tools: seq<Option<Tool>>) returns (next: Source)
      ensures next == ByName(Present(tools))
    {
      next := map[];
      var i := 0;
      while i < |tools|
        invariant 0 <= i <= |tools|
        invariant next == ByName(Present(tools[..i]))
      {
        PresentStep(tools, i);
        if tools[i].Some? {
          next := next[tools[i].value.name := tools[i].value];
        }
        i := i + 1;
      }
      assert tools[..i] == tools;
    }

    method UnregisterSources(names: seq<string>)
      requires Valid()
      modifies this`sources, this`flatMap, this`flatTools
      ensures Valid()
      ensures sources == Unregistered(old(sources), names) && Removes(old(sources), names, sources)
    {
      UnregisteredRemoves(sources, names);
      hide IsFlat, Removes;
      OperationsKeepNames(sources, sources, {}, {}, names);
      EnsureLocked();
      RemoveEffective(names);
      Rebuild();
    }

    method RemoveEffective(names: seq<string>)
      modifies this`sources
      ensures sources == old(sources) - EffectiveElems(names)
    {
      var i := 0;
      while i < |names|
        invariant 0 <= i <= |names|
        invariant sources == old(sources) - EffectiveElems(names[..i])
      {
        var name := names[i];
        if name == "" {
          name := LOCAL;
        }
        ElemsUpto(names, i);
        sources := sources - {name};
        i := i + 1;
      }
      assert names[..i] == names;
    }

    method CloneExcludingSources(excluded: set<string>) returns (clone: RegisterTools)
      requires Valid()
      ensures fresh(clone) && clone.Valid() && clone.leases == NoLeases()
      ensures clone.sources == CloneExcluding(sources, excluded) && Copies(sources, excluded, clone.sources)
    {
      assert WellNamed(sources);
      ClonedCopies(sources, excluded);
      OperationsKeepNames(sources, sources, excluded, {}, []);
      CloneIsMerge(sources, excluded);
      hide *;
      var copied := CopyExcluding(excluded);
      clone := new RegisterTools();
      clone.sources := clone.sources + copied;
      clone.Rebuild();
    }

    method CopyExcluding(excluded: set<string>) returns (copied: Sources)
      ensures copied == sources - excluded
    {
      copied := map[];
      var rest := sources.Keys;
      while rest != {}
        invariant rest <= sources.Keys
        invariant copied == map s | s in sources && s !in rest && s !in excluded :: sources[s]
        decreases rest
      {
        var source :| source in rest;
        rest := rest - {source};
        if source in excluded {
          continue;
        }
        copied := copied[source := sources[source]];
      }
    }

    method ReplaceSources(snapshot: RegisterTools, remove: seq<string>, add: seq<string>)
      requires Valid() && snapshot.Valid()
      modifies this`sources, this`flatMap, this`flatTools
      ensures Valid()
      ensures sources == Replaced(old(sources), old(snapshot.sources), Elems(remove), Elems(add))
      ensures Replaces(old(sources), old(snapshot.sources), remove, add, sources)
    {
      ReplacedReplaces(sources, snapshot.sources, remove, add);
      hide IsFlat, Replaces;
      OperationsKeepNames(sources, snapshot.sources, Elems(remove), Elems(add), []);
      var copied := snapshot.CopySources(add);
      EnsureLocked();
      RemoveSources(remove);
      sources := sources + copied;
      Rebuild();
    }

    method CopySources(names: seq<string>) returns (copied: Sources)
      ensures copied == map s | s in Elems(names) :: SourceOf(sources, s)
    {
      copied := map[];
      var i := 0;
      while i < |names|
        invariant 0 <= i <= |names|
        invariant copied == map s | s in Elems(names[..i]) :: SourceOf(sources, s)
      {
        ElemsUpto(names, i);
        copied := copied[names[i] := SourceOf(sources, names[i])];
        i := i + 1;
      }
      assert names[..i] == names;
    }

    method RemoveSources(names: seq<string>)
      modifies this`sources
      ensures sources == old(sources) - Elems(names)
    {
      var i := 0;
      while i < |names|
        invariant 0 <= i <= |names|
        invariant sources == old(sources) - Elems(names[..i])
      {
        ElemsUpto(names, i);
        sources := sources - {names[i]};
        i := i + 1;
      }
      assert names[..i] == names;
    }

    /** The index first, then the sources in order; on a valid registry the scan never finds more. */
    method GetTool(name: string) returns (tool: Option<Tool>)
      requires Valid()
      ensures tool == Lookup(sources, Order(sources), name)
    {
      IndexIsScan(sources, Flat(flatMap, flatTools), name);
      if name in flatMap {
        return Some(flatMap[name]);
      }
      tool := ScanSources(name);
    }

    /** The fallback of `GetTool`, which does not use the index. */
    method ScanSources(name: string) returns (tool: Option<Tool>)
      ensures tool == Lookup(sources, Order(sources), name)
    {
      hide First, Lookup, Less, SortedSeq;
      LookupStep(sources, Order(sources), name);
      if LOCAL in sources && name in sources[LOCAL] {
        return Some(sources[LOCAL][name]);
      }
      var names := SortedNames(sources.Keys - {LOCAL});
      SortedUnique(names, SortedSeq(sources.Keys - {LOCAL}));
      assert Order(sources)[1..] == names;
      assert names[0..] == names;
      var i := 0;
      while i < |names|
        invariant 0 <= i <= |names|
        invariant Lookup(sources, Order(sources), name) == Lookup(sources, names[i..], name)
      {
        assert names[i] in names;
        LookupStep(sources, names[i..], name);
        if name in sources[names[i]] {
          return Some(sources[names[i]][name]);
        }
        assert names[i..][1..] == names[i + 1..];
        i := i + 1;
      }
      assert names[i..] == [];
      LookupStep(sources, [""], name);
      return None;
    }

    method List() returns (tools: seq<Tool>)
      requires Valid()
      ensures tools == flatTools
    {
      tools := flatTools;
    }

    /** Pins a private copy of the catalog; `id` stands for the identity of the copy. */
    method Snapshot() returns (snapshot: RegisterTools, id: nat)
      requires Valid()
      modifies this`leases
      ensures fresh(snapshot) && snapshot.Valid() && snapshot.sources == CloneExcluding(sources, {})
      ensures id == old(leases.snapshots) && leases == Taken(old(leases))
    {
      snapshot := CloneExcludingSources({});
      id := leases.snapshots;
      leases := leases.(held := leases.held[id := []], snapshots := id + 1);
    }

    /** The locked part of a release: the snapshot no longer counts, its callbacks are the caller's to run. */
    method BeginRelease(id: nat) returns (callbacks: seq<nat>)
      modifies this`leases
      ensures callbacks == Callbacks(old(leases), id) && leases == Grabbed(old(leases), id)
    {
      callbacks := [];
      if id in leases.held {
        callbacks := leases.held[id];
      }
      leases := leases.(held := leases.held - {id});
    }

    /** One callback of a release; the last one for its retirement has to clean up. */
    method RunCallback(r: nat) returns (cleanup: bool)
      requires r < |leases.remaining|
      modifies this`leases
      ensures leases == Reported(old(leases), r)
      ensures cleanup <==> old(leases.remaining[r]) - 1 == 0
    {
      var left := leases.remaining[r] - 1;
      leases := leases.(remaining := leases.remaining[r := left]);
      cleanup := left == 0;
    }

    /** Makes every snapshot that is out hold up a new retirement; with none out the cleanup is due at once. */
    method Retire() returns (r: nat, cleanup: bool)
      modifies this`leases
      ensures r == |old(leases.remaining)| && leases == Retired(old(leases))
      ensures cleanup <==> |old(leases.held)| == 0
    {
      r := |leases.remaining|;
      leases := leases.(remaining := leases.remaining + [|leases.held|]);
      if |leases.held| == 0 {
        assert leases.held == map[];
        return r, true;
      }
      var rest := leases.held.Keys;
      assert forall id :: id in leases.held ==> leases.held[id] + [] == leases.held[id];
      while rest != {}
        invariant rest <= leases.held.Keys
        invariant leases == old(leases).(remaining := old(leases.remaining) + [|old(leases.held)|], held := leases.held)
        invariant leases.held == map id | id in old(leases.held) :: old(leases.held)[id] + if id in rest then [] else [r]
        decreases rest
      {
        var id :| id in rest;
        rest := rest - {id};
        leases := leases.(held := leases.held[id := leases.held[id] + [r]]);
      }
      cleanup := false;
    }

    method EnsureLocked()
      modifies this`sources
      ensures sources == Ensure(old(sources))
    {
      if LOCAL !in sources {
        sources := sources[LOCAL := map[]];
      }
    }

    /** Flattens the sources from scratch. */
    method Rebuild()
      requires WellNamed(sources)
      modifies this`flatMap, this`flatTools
      ensures Valid()
    {
      hide IsFlat, WellNamed;
      flatMap, flatTools := map[], [];
      ghost var order := Order(sources);
      NothingIsFlat(sources);
      AddSource(LOCAL, []);
      assert [] + [LOCAL] == [LOCAL];
      var names := SortedNames(sources.Keys - {LOCAL});
      SortedUnique(names, SortedSeq(sources.Keys - {LOCAL}));
      var i := 0;
      assert [LOCAL] + names[..0] == [LOCAL];
      while i < |names|
        invariant 0 <= i <= |names|
        invariant IsFlat(sources, [LOCAL] + names[..i], Flat(flatMap, flatTools))
      {
        LessTotal(names[i], names[i]);
        assert names[i] in names && names[i] !in names[..i];
        AddSource(names[i], [LOCAL] + names[..i]);
        assert ([LOCAL] + names[..i]) + [names[i]] == [LOCAL] + names[..i + 1];
        i := i + 1;
      }
      assert [LOCAL] + names[..i] == order;
    }

    /** Adds the names of one more source that no earlier source has, in name order. */
    method AddSource(source: string, ghost order: seq<string>)
      requires WellNamed(sources) && source !in order && IsFlat(sources, order, Flat(flatMap, flatTools))
      modifies this`flatMap, this`flatTools
      ensures IsFlat(sources, order + [source], Flat(flatMap, flatTools))
    {
      hide IsFlat, IsPartly, WellNamed, Sorted;
      var tools := SourceOf(sources, source);
      var names := SortedNames(tools.Keys);
      StartIsPartly(sources, order, source, Flat(flatMap, flatTools));
      var i := 0;
      assert names[..0] == [];
      while i < |names|
        invariant 0 <= i <= |names|
        invariant IsPartly(sources, order, source, names[..i], Flat(flatMap, flatTools))
      {
        var name := names[i];
        assert name in tools.Keys;
        PartlyNext(sources, order, source, names, i, Flat(flatMap, flatTools));
        if name !in flatMap {
          flatMap := flatMap[name := tools[name]];
          flatTools := flatTools + [tools[name]];
        }
        i := i + 1;
      }
      assert names[..i] == names;
      PartlyIsFlat(sources, order, source, names, Flat(flatMap, flatTools));
    }
  }
}
