/**
 * `mcp.Manager` on a real registry takes the steps of the transition system in RuntimeRetirement, so what holds in
 * every interleaving holds for it.
 */
module RuntimeRefinement {
  import opened Text
  import opened ToolCatalog
  import opened TurnLeases
  import opened ToolRegistry
  import opened ToolNames
  import opened McpReload
  import R = RuntimeRetirement

  /** The registry and the manager `m` are as the state says; `names` and `clients` are the manager's own lists. */
  ghost predicate Represents(s: R.State, m: nat, sources: Sources, leases: Leases, names: seq<string>, clients: seq<nat>, running: bool) {
    && s.live == sources && s.turns.leases == leases
    && m in s.managers && s.managers[m].sources == Elems(names)
    && (forall c :: c in R.AtHome(s.home, R.Owned(m)) <==> c in clients)
    && (!running ==> names == [] && clients == [])
  }

  ghost predicate IsStep(s: R.State, a: R.Action, s': R.State) {
    R.Enabled(s, a) && s' == R.Apply(s, a)
  }

  // ---- Closing ----

  ghost predicate Closes(s: R.State, m: nat, s': R.State) {
    exists s1, s2 :: IsStep(s, R.BeginClose(m), s1) && IsStep(s1, R.Unregister(m), s2) && IsStep(s2, R.RegisterRetirement(m), s')
  }

  lemma ElemsAreEffective(names: seq<string>)
    requires "" !in names
    ensures EffectiveElems(names) == Elems(names)
  {
  }

  lemma NobodyLeaves(s: R.State, m: nat)
    requires R.Consistent(s) && m in s.managers && (s.managers[m].phase == R.Idle || s.managers[m].phase.Prepared?)
    ensures R.AtHome(s.home, R.Leaving(m)) == {}
  {
    forall c ensures c !in R.AtHome(s.home, R.Leaving(m)) {
      assert R.PhaseFits(s, c);
    }
  }

  lemma StepKeeps(s: R.State, a: R.Action, s': R.State)
    requires R.Consistent(s) && IsStep(s, a, s')
    ensures R.Consistent(s')
  {
    hide R.Consistent, R.Enabled, R.Apply;
    R.ApplyKeeps(s, a);
  }

  /** The three steps of a close, spelled out. */
  lemma ClosingForm(s: R.State, m: nat) returns (s1: R.State, s2: R.State, s': R.State)
    requires m in s.managers && s.managers[m].phase == R.Idle && s.lock == None
    ensures IsStep(s, R.BeginClose(m), s1) && IsStep(s1, R.Unregister(m), s2) && IsStep(s2, R.RegisterRetirement(m), s')
    ensures s'.live == Ensure(s.live) - s.managers[m].sources && s'.turns == Retire(s.turns) && s'.lock == None
    ensures m in s'.managers && s'.managers[m] == R.Manager({}, R.Idle)
    ensures s'.home == R.Rehome(R.Rehome(s.home, R.Owned(m), R.Leaving(m)), R.Leaving(m), R.Retiring(|s.turns.waiting|))
    ensures s'.closed == if |s.turns.leases.held| == 0
                         then s.closed + R.AtHome(R.Rehome(s.home, R.Owned(m), R.Leaving(m)), R.Leaving(m)) else s.closed
  {
    s1 := R.Apply(s, R.BeginClose(m));
    s2 := R.Apply(s1, R.Unregister(m));
    s' := R.Apply(s2, R.RegisterRetirement(m));
    hide R.Rehome, R.AtHome, Ensure, Retire;
  }

  /** Whom the new owner of a home has: those who were there and those who moved. */
  lemma Moved(home: map<nat, R.Home>, from: R.Home, there: R.Home, h: R.Home)
    requires from != there
    ensures R.AtHome(R.Rehome(home, from, there), h) ==
            if h == there then R.AtHome(home, there) + R.AtHome(home, from) else if h == from then {} else R.AtHome(home, h)
  {
  }

  lemma ClosingHomes(home: map<nat, R.Home>, m: nat, r: nat)
    requires R.AtHome(home, R.Leaving(m)) == {}
    ensures var left := R.Rehome(home, R.Owned(m), R.Leaving(m));
            && R.AtHome(left, R.Leaving(m)) == R.AtHome(home, R.Owned(m))
            && R.AtHome(R.Rehome(left, R.Leaving(m), R.Retiring(r)), R.Owned(m)) == {}
  {
    hide R.Rehome, R.AtHome;
    var left := R.Rehome(home, R.Owned(m), R.Leaving(m));
    Moved(home, R.Owned(m), R.Leaving(m), R.Leaving(m));
    Moved(home, R.Owned(m), R.Leaving(m), R.Owned(m));
    Moved(left, R.Leaving(m), R.Retiring(r), R.Owned(m));
  }

  lemma RetireLeases(t: Turns)
    ensures Retire(t).leases == Retired(t.leases)
  {
  }

  lemma ClosedRepresents(s: R.State, m: nat, s': R.State, sources: Sources, leases: Leases, names: seq<string>, clients: seq<nat>)
    requires Represents(s, m, sources, leases, names, clients, true) && "" !in names && R.AtHome(s.home, R.Leaving(m)) == {}
    requires s'.live == Ensure(s.live) - s.managers[m].sources && s'.turns == Retire(s.turns)
    requires m in s'.managers && s'.managers[m].sources == {}
    requires s'.home == R.Rehome(R.Rehome(s.home, R.Owned(m), R.Leaving(m)), R.Leaving(m), R.Retiring(|s.turns.waiting|))
    ensures Represents(s', m, Unregistered(sources, names), Retired(leases), [], [], false)
  {
    ElemsAreEffective(names);
    RetireLeases(s.turns);
    ClosingHomes(s.home, m, |s.turns.waiting|);
    hide R.Rehome, R.AtHome, Ensure, Retired, Retire, EffectiveElems;
  }

  lemma ClosingSteps(s: R.State, m: nat, sources: Sources, leases: Leases, names: seq<string>, clients: seq<nat>) returns (s': R.State)
    requires R.Consistent(s) && Represents(s, m, sources, leases, names, clients, true)
    requires s.managers[m].phase == R.Idle && s.lock == None
    ensures Closes(s, m, s') && R.Consistent(s') && IsIdle(s', m)
    ensures Represents(s', m, Unregistered(sources, names), Retired(leases), [], [], false)
    ensures forall c :: c in s'.closed <==> c in s.closed || (|leases.held| == 0 && c in clients)
  {
    assert R.LockFits(s, m);
    NobodyLeaves(s, m);
    hide R.Consistent, R.Rehome, R.AtHome, Ensure, IsStep, Retired, Retire, Unregistered;
    var s1, s2;
    s1, s2, s' := ClosingForm(s, m);
    StepKeeps(s, R.BeginClose(m), s1);
    StepKeeps(s1, R.Unregister(m), s2);
    StepKeeps(s2, R.RegisterRetirement(m), s');
    ClosingHomes(s.home, m, |s.turns.waiting|);
    ClosedRepresents(s, m, s', sources, leases, names, clients);
  }

  /** Between operations of `m`. */
  predicate IsIdle(s: R.State, m: nat) {
    m in s.managers && s.managers[m].phase == R.Idle && s.lock == None
  }

  /** Nobody reaches a closed client. */
  lemma ClosedIsUnreachable(s: R.State, c: nat)
    requires R.Consistent(s) && c in s.closed
    ensures !R.Serves(s.live, c)
  {
    assert R.ClosedFits(s, c);
    forall src ensures !R.ServedBy(s.live, src, c) {
      assert R.LiveServed(s, src, c);
    }
  }

  /**
   * `Manager.Close` takes the three steps of a close, or none when it never published; every client it closes is
   * closed in the state it ends in, and no tool that is still registered belongs to one of them.
   */
  method CloseRefines(manager: Manager, registry: RegisterTools, ghost s: R.State, ghost m: nat) returns (closed: seq<nat>, ghost s': R.State)
    requires registry.Valid() && R.Consistent(s) && IsIdle(s, m)
    requires Represents(s, m, registry.sources, registry.leases, manager.sources, manager.clients, manager.running)
    modifies manager, registry
    ensures registry.Valid() && R.Consistent(s') && IsIdle(s', m)
    ensures if old(manager.running) then Closes(s, m, s') else s' == s
    ensures Represents(s', m, registry.sources, registry.leases, manager.sources, manager.clients, manager.running)
    ensures forall c :: c in s'.closed <==> c in s.closed || c in closed
    ensures forall c :: c in closed ==> !R.Serves(registry.sources, c)
  {
    s' := s;
    if manager.running {
      hide R.Consistent, Represents, RegisterTools.Valid, R.Serves;
      s' := ClosingSteps(s, m, registry.sources, registry.leases, manager.sources, manager.clients);
    }
    closed := manager.Close(registry);
    forall c | c in closed ensures !R.Serves(registry.sources, c) {
      ClosedIsUnreachable(s', c);
    }
  }

  // ---- Reloading ----

  /** What a reload publishes, by source. */
  function CandidatesOf(rs: seq<Runtime>): Sources {
    if rs == [] then map[]
    else
      var last := rs[|rs| - 1];
      CandidatesOf(rs[..|rs| - 1])[last.source := ByName(last.tools)]
  }

  lemma {:induction false} CandidatesAre(rs: seq<Runtime>)
    requires SourcesDiffer(rs)
    ensures CandidatesOf(rs).Keys == Elems(SourcesOf(rs)) && "" !in CandidatesOf(rs)
    ensures forall s :: s in CandidatesOf(rs) ==> exists i :: 0 <= i < |rs| && rs[i].source == s
    ensures forall i :: 0 <= i < |rs| ==> rs[i].source in CandidatesOf(rs) && CandidatesOf(rs)[rs[i].source] == ByName(rs[i].tools)
  {
    hide ByName;
    if rs != [] {
      var n, front := |rs| - 1, rs[..|rs| - 1];
      assert SourcesDiffer(front);
      CandidatesAre(front);
      forall s | s in CandidatesOf(rs) ensures exists i :: 0 <= i < |rs| && rs[i].source == s {
        if s == rs[n].source {
          assert rs[n].source == s;
        } else {
          var i :| 0 <= i < |front| && front[i].source == s;
          assert rs[i].source == s;
        }
      }
      forall i | 0 <= i < |rs| ensures rs[i].source in CandidatesOf(rs) && CandidatesOf(rs)[rs[i].source] == ByName(rs[i].tools) {
        if i < n {
          assert front[i] == rs[i];
        }
      }
    }
  }

  /** Publishing through the private copy is replacing the old sources by the candidates. */
  lemma PublishedIsReplaced(live: Sources, gone: seq<string>, rs: seq<Runtime>)
    requires SourcesDiffer(rs)
    ensures Published(live, gone, rs) == Replaced(live, CandidatesOf(rs), Elems(gone), CandidatesOf(rs).Keys)
  {
    CandidatesAre(rs);
    var copy := Registered(CloneExcluding(live, Elems(gone)), rs);
    forall s | s in CandidatesOf(rs) ensures SourceOf(copy, s) == SourceOf(CandidatesOf(rs), s) {
      var i :| 0 <= i < |rs| && rs[i].source == s;
      RegisteredHolds(CloneExcluding(live, Elems(gone)), rs, i);
    }
    hide Registered, CandidatesOf, CloneExcluding, ByName, Ensure;
  }

  ghost predicate OwnTools(rs: seq<Runtime>) {
    forall r, t :: r in rs && t in r.tools ==> t.client == Some(r.client)
  }

  lemma ServedAreOwn(rs: seq<Runtime>, ws: seq<Wanted>)
    requires AllServe(rs, ws)
    ensures OwnTools(rs)
  {
    forall r, t | r in rs && t in r.tools ensures t.client == Some(r.client) {
      var i :| 0 <= i < |rs| && rs[i] == r;
      var j :| 0 <= j < |r.tools| && r.tools[j] == t;
      assert Serves(rs[i], ws[i]);
    }
  }

  lemma {:induction false} ClientsAre(rs: seq<Runtime>, c: nat)
    ensures c in ClientsOf(rs) <==> exists r :: r in rs && r.client == c
  {
    if rs != [] {
      var front := rs[..|rs| - 1];
      ClientsAre(front, c);
      assert rs == front + [rs[|rs| - 1]];
      if r :| r in rs && r.client == c {
        assert r in front || r == rs[|rs| - 1];
      }
      if c in ClientsOf(front) {
        var r :| r in front && r.client == c;
        assert r in rs;
      }
    }
  }

  lemma CandidatesServe(rs: seq<Runtime>, src: string, c: nat)
    requires SourcesDiffer(rs) && OwnTools(rs) && R.ServedBy(CandidatesOf(rs), src, c)
    ensures c in ClientsOf(rs)
  {
    CandidatesAre(rs);
    var i :| 0 <= i < |rs| && rs[i].source == src;
    ByNameIsWellNamed(rs[i].tools);
    hide ByName, CandidatesOf;
    var n :| n in CandidatesOf(rs)[src] && CandidatesOf(rs)[src][n].client == Some(c);
    assert CandidatesOf(rs)[src][n] in rs[i].tools && rs[i] in rs;
    ClientsAre(rs, c);
  }

  ghost predicate Reloads(s: R.State, m: nat, candidates: Sources, clients: set<nat>, s': R.State) {
    exists s1, s2 :: IsStep(s, R.Prepare(m, candidates, clients), s1) && IsStep(s1, R.Publish(m), s2) && IsStep(s2, R.RegisterRetirement(m), s')
  }

  /** The three steps of a reload, spelled out. */
  lemma ReloadForm(s: R.State, m: nat, candidates: Sources, clients: set<nat>) returns (s1: R.State, s2: R.State, s': R.State)
    requires IsIdle(s, m) && R.Enabled(s, R.Prepare(m, candidates, clients))
    ensures IsStep(s, R.Prepare(m, candidates, clients), s1) && IsStep(s1, R.Publish(m), s2) && IsStep(s2, R.RegisterRetirement(m), s')
    ensures s'.live == Replaced(s.live, candidates, s.managers[m].sources, candidates.Keys) && s'.turns == Retire(s.turns) && s'.lock == None
    ensures m in s'.managers && s'.managers[m] == R.Manager(candidates.Keys, R.Idle)
    ensures var left := ReloadedHome(s.home, m, clients);
            && s'.home == R.Rehome(left, R.Leaving(m), R.Retiring(|s.turns.waiting|))
            && s'.closed == if |s.turns.leases.held| == 0 then s.closed + R.AtHome(left, R.Leaving(m)) else s.closed
  {
    s1 := R.Apply(s, R.Prepare(m, candidates, clients));
    hide R.ServedBy;
    s2 := R.Apply(s1, R.Publish(m));
    s' := R.Apply(s2, R.RegisterRetirement(m));
    hide R.Rehome, R.AtHome, Replaced, Retire;
  }

  function ReloadedHome(home: map<nat, R.Home>, m: nat, clients: set<nat>): map<nat, R.Home> {
    R.Rehome(R.Rehome(WithCandidates(home, m, clients), R.Owned(m), R.Leaving(m)), R.Candidate(m), R.Owned(m))
  }

  function WithCandidates(home: map<nat, R.Home>, m: nat, clients: set<nat>): map<nat, R.Home> {
    home + map c | c in clients :: R.Candidate(m)
  }

  lemma AmongCandidates(home: map<nat, R.Home>, m: nat, clients: set<nat>, h: R.Home)
    requires clients !! home.Keys
    ensures R.AtHome(WithCandidates(home, m, clients), h) == R.AtHome(home, h) + if h == R.Candidate(m) then clients else {}
  {
    var after := WithCandidates(home, m, clients);
    forall c ensures c in after && after[c] == h <==> (c in home && home[c] == h) || (h == R.Candidate(m) && c in clients) {
    }
  }

  lemma ReloadHomes(home: map<nat, R.Home>, m: nat, clients: set<nat>, r: nat)
    requires clients !! home.Keys && R.AtHome(home, R.Leaving(m)) == {} && R.AtHome(home, R.Candidate(m)) == {}
    ensures var left := ReloadedHome(home, m, clients);
            && R.AtHome(left, R.Leaving(m)) == R.AtHome(home, R.Owned(m))
            && R.AtHome(R.Rehome(left, R.Leaving(m), R.Retiring(r)), R.Owned(m)) == clients
  {
    hide R.Rehome, R.AtHome, WithCandidates;
    var h1 := WithCandidates(home, m, clients);
    AmongCandidates(home, m, clients, R.Candidate(m));
    AmongCandidates(home, m, clients, R.Owned(m));
    AmongCandidates(home, m, clients, R.Leaving(m));
    var h2 := R.Rehome(h1, R.Owned(m), R.Leaving(m));
    var left := ReloadedHome(home, m, clients);
    Moved(h1, R.Owned(m), R.Leaving(m), R.Leaving(m));
    Moved(h1, R.Owned(m), R.Leaving(m), R.Owned(m));
    Moved(h1, R.Owned(m), R.Leaving(m), R.Candidate(m));
    Moved(h2, R.Candidate(m), R.Owned(m), R.Owned(m));
    Moved(h2, R.Candidate(m), R.Owned(m), R.Leaving(m));
    Moved(left, R.Leaving(m), R.Retiring(r), R.Owned(m));
  }

  lemma NobodyPrepared(s: R.State, m: nat)
    requires R.Consistent(s) && IsIdle(s, m)
    ensures R.AtHome(s.home, R.Candidate(m)) == {}
  {
    forall c ensures c !in R.AtHome(s.home, R.Candidate(m)) {
      assert R.PhaseFits(s, c);
    }
  }

  lemma PrepareEnabled(s: R.State, m: nat, rs: seq<Runtime>, clients: set<nat>)
    requires IsIdle(s, m) && SourcesDiffer(rs) && OwnTools(rs) && clients !! s.home.Keys
    requires forall c :: c in clients <==> c in ClientsOf(rs)
    ensures R.Enabled(s, R.Prepare(m, CandidatesOf(rs), clients))
  {
    CandidatesAre(rs);
    hide CandidatesOf, R.ServedBy, OwnTools, SourcesDiffer;
    forall src, c | R.ServedBy(CandidatesOf(rs), src, c) ensures c in clients {
      CandidatesServe(rs, src, c);
    }
  }

  lemma ReloadedRepresents(s: R.State, m: nat, s': R.State, sources: Sources, leases: Leases, names: seq<string>, clients: seq<nat>,
                           running: bool, rs: seq<Runtime>, theirs: set<nat>)
    requires Represents(s, m, sources, leases, names, clients, running) && SourcesDiffer(rs)
    requires R.AtHome(s.home, R.Leaving(m)) == {} && R.AtHome(s.home, R.Candidate(m)) == {}
    requires theirs !! s.home.Keys && forall c :: c in theirs <==> c in ClientsOf(rs)
    requires s'.live == Replaced(s.live, CandidatesOf(rs), s.managers[m].sources, CandidatesOf(rs).Keys) && s'.turns == Retire(s.turns)
    requires m in s'.managers && s'.managers[m].sources == CandidatesOf(rs).Keys
    requires s'.home == R.Rehome(ReloadedHome(s.home, m, theirs), R.Leaving(m), R.Retiring(|s.turns.waiting|))
    ensures Represents(s', m, Published(sources, names, rs), Retired(leases), SourcesOf(rs), ClientsOf(rs), true)
  {
    hide R.Rehome, R.AtHome, Retired, Retire, Published, Replaced, CandidatesOf, ReloadedHome, ClientsOf, SourcesOf, SourcesDiffer, Elems;
    PublishedIsReplaced(sources, names, rs);
    CandidateKeys(rs);
    RetireLeases(s.turns);
    ReloadHomes(s.home, m, theirs, |s.turns.waiting|);
  }

  lemma CandidateKeys(rs: seq<Runtime>)
    requires SourcesDiffer(rs)
    ensures CandidatesOf(rs).Keys == Elems(SourcesOf(rs))
  {
    CandidatesAre(rs);
  }

  lemma ReloadingSteps(s: R.State, m: nat, sources: Sources, leases: Leases, names: seq<string>, clients: seq<nat>, running: bool, rs: seq<Runtime>)
    returns (s': R.State)
    requires R.Consistent(s) && IsIdle(s, m) && Represents(s, m, sources, leases, names, clients, running)
    requires SourcesDiffer(rs) && OwnTools(rs) && forall c :: c in ClientsOf(rs) ==> c !in s.home
    ensures Reloads(s, m, CandidatesOf(rs), (set c | c in ClientsOf(rs)), s') && R.Consistent(s') && IsIdle(s', m)
    ensures Represents(s', m, Published(sources, names, rs), Retired(leases), SourcesOf(rs), ClientsOf(rs), true)
    ensures forall c :: c in s'.closed <==> c in s.closed || (|leases.held| == 0 && c in clients)
  {
    var theirs := set c | c in ClientsOf(rs);
    hide R.Consistent, R.Rehome, R.AtHome, R.Enabled, IsStep, Retired, Retire, Published, Replaced, CandidatesOf, ReloadedHome, ClientsOf,
      SourcesOf, OwnTools, SourcesDiffer;
    NobodyLeaves(s, m);
    NobodyPrepared(s, m);
    PrepareEnabled(s, m, rs, theirs);
    var s1, s2;
    s1, s2, s' := ReloadForm(s, m, CandidatesOf(rs), theirs);
    StepKeeps(s, R.Prepare(m, CandidatesOf(rs), theirs), s1);
    StepKeeps(s1, R.Publish(m), s2);
    StepKeeps(s2, R.RegisterRetirement(m), s');
    ReloadedRepresents(s, m, s', sources, leases, names, clients, running, rs, theirs);
    ReloadHomes(s.home, m, theirs, |s.turns.waiting|);
  }

  /**
   * A reload that succeeds takes the steps of preparing, publishing and retiring, if the processes it started are
   * new; one that fails takes none. No tool that is registered afterwards belongs to a closed client.
   */
  method ReloadRefines(manager: Manager, registry: RegisterTools, prefix: string, servers: seq<Server>, outcomes: seq<Outcome>,
                       cancelled: bool, ghost s: R.State, ghost m: nat)
    returns (ok: bool, runtimes: seq<Runtime>, ghost s': R.State)
    requires registry.Valid() && |servers| == |outcomes| && |registry.flatMap| + Total(outcomes) + 2 < INT_LIMIT
    requires R.Consistent(s) && IsIdle(s, m)
    requires Represents(s, m, registry.sources, registry.leases, manager.sources, manager.clients, manager.running)
    modifies manager, registry
    ensures registry.Valid() && (!ok ==> s' == s)
    ensures ok && (forall c :: c in ClientsOf(runtimes) ==> c !in s.home) ==>
      && Reloads(s, m, CandidatesOf(runtimes), (set c | c in ClientsOf(runtimes)), s')
      && (forall c :: c in s'.closed <==> c in s.closed || (|old(registry.leases.held)| == 0 && c in old(manager.clients)))
    ensures !ok || (forall c :: c in ClientsOf(runtimes) ==> c !in s.home) ==>
      && R.Consistent(s') && IsIdle(s', m)
      && Represents(s', m, registry.sources, registry.leases, manager.sources, manager.clients, manager.running)
      && (forall c :: c in s'.closed ==> !R.Serves(registry.sources, c))
  {
    s' := s;
    ghost var sources, leases, names, clients, running := registry.sources, registry.leases, manager.sources, manager.clients, manager.running;
    ok, runtimes := false, [];
    var started, closed;
    ok, runtimes, started, closed := manager.Reload(registry, prefix, servers, outcomes, cancelled);
    if ok {
      WantedDiffer(EffectivePrefix(prefix), servers, outcomes, runtimes);
      ServedAreOwn(runtimes, WantedOf(EffectivePrefix(prefix), servers, outcomes));
    }
    hide R.Consistent, RegisterTools.Valid, R.Serves, Published, Retired, CandidatesOf, ClientsOf, SourcesOf, OwnTools, SourcesDiffer, Resolves, AllServe, WantedOf, GoodNames, Blocks;
    if ok && forall c :: c in ClientsOf(runtimes) ==> c !in s.home {
      s' := ReloadingSteps(s, m, sources, leases, names, clients, running, runtimes);
    }
    if !ok || forall c :: c in ClientsOf(runtimes) ==> c !in s.home {
      forall c | c in s'.closed ensures !R.Serves(registry.sources, c) {
        ClosedIsUnreachable(s', c);
      }
    }
  }

  // ---- Turns and local tools ----

  /** The registry is as the state says. */
  ghost predicate Shows(s: R.State, sources: Sources, leases: Leases) {
    s.live == sources && s.turns.leases == leases
  }

  /** A turn's snapshot is the copy that the state pins for it. */
  method SnapshotRefines(registry: RegisterTools, ghost s: R.State) returns (snapshot: RegisterTools, id: nat, ghost s': R.State)
    requires registry.Valid() && Shows(s, registry.sources, registry.leases) && s.lock == None
    modifies registry
    ensures registry.Valid() && fresh(snapshot) && snapshot.Valid()
    ensures IsStep(s, R.TakeSnapshot, s') && Shows(s', registry.sources, registry.leases)
    ensures id in s'.pinned && s'.pinned[id] == snapshot.sources
  {
    s' := R.Apply(s, R.TakeSnapshot);
    hide CloneExcluding, TurnLeases.Taken;
    snapshot, id := registry.Snapshot();
  }

  method RegisterRefines(registry: RegisterTools, tool: Tool, ghost s: R.State) returns (ghost s': R.State)
    requires registry.Valid() && Shows(s, registry.sources, registry.leases) && tool.client == None
    modifies registry
    ensures registry.Valid() && IsStep(s, R.RegisterLocal(tool), s') && Shows(s', registry.sources, registry.leases)
  {
    s' := R.Apply(s, R.RegisterLocal(tool));
    registry.Register(Some(tool));
  }

  /** Another component replaces its source; none of its tools needs a client. */
  method RegisterSourceRefines(registry: RegisterTools, source: string, tools: seq<Option<Tool>>, ghost s: R.State) returns (ghost s': R.State)
    requires registry.Valid() && Shows(s, registry.sources, registry.leases)
    requires forall t :: Some(t) in tools ==> t.client == None
    modifies registry
    ensures registry.Valid() && IsStep(s, R.RegisterOther(source, ByName(Present(tools))), s') && Shows(s', registry.sources, registry.leases)
  {
    PresentFiles(tools);
    hide ByName, Present, Registers;
    s' := R.Apply(s, R.RegisterOther(source, ByName(Present(tools))));
    registry.RegisterSource(source, tools);
  }

  lemma PresentFiles(tools: seq<Option<Tool>>)
    requires forall t :: Some(t) in tools ==> t.client == None
    ensures R.NoClients(ByName(Present(tools)))
  {
    ByNameFiles(tools);
    var filed := ByName(Present(tools));
    hide ByName, Present;
    forall n | n in filed ensures filed[n].client == None {
      assert IsLast(tools, filed[n]);
      assert Some(filed[n]) in tools;
    }
  }

  /** The locked part of a release. */
  method BeginReleaseRefines(registry: RegisterTools, id: nat, ghost s: R.State) returns (callbacks: seq<nat>, ghost s': R.State)
    requires Shows(s, registry.sources, registry.leases) && s.lock == None && id in registry.leases.held
    modifies registry`leases
    ensures IsStep(s, R.BeginRelease(id), s') && Shows(s', registry.sources, registry.leases)
    ensures id in s'.turns.releasing && s'.turns.releasing[id] == callbacks
  {
    s' := R.Apply(s, R.BeginRelease(id));
    callbacks := registry.BeginRelease(id);
  }

  /** One callback of a release; when it is the last one the retirement waits for, its clients are closed. */
  method RunCallbackRefines(registry: RegisterTools, r: nat, ghost id: nat, ghost s: R.State) returns (cleanup: bool, ghost s': R.State)
    requires Shows(s, registry.sources, registry.leases) && R.Enabled(s, R.RunCallback(id))
    requires r == s.turns.releasing[id][0]
    modifies registry`leases
    ensures IsStep(s, R.RunCallback(id), s') && Shows(s', registry.sources, registry.leases)
    ensures s'.closed == if cleanup then s.closed + R.AtHome(s.home, R.Retiring(r)) else s.closed
  {
    s' := R.Apply(s, R.RunCallback(id));
    cleanup := registry.RunCallback(r);
  }
}
