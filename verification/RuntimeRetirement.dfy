/**
 * Reloading and closing tool runtimes while turns are using snapshots of the catalog, in every interleaving.
 * A manager stands for `mcp.Manager` and for `plugin.Manager`; its clients are the processes it has started.
 */
module RuntimeRetirement {
  import opened Text
  import opened ToolCatalog
  import opened TurnLeases

  /** Whose hands a client is in: the one list or closure that will close it. */
  datatype Home =
    | Candidate(manager: nat)   // started, not published
    | Owned(manager: nat)       // in the manager's list
    | Leaving(manager: nat)     // taken out of the list, retirement not registered yet
    | Retiring(retirement: nat) // in the cleanup closure of a retirement
    | Dropped                   // closed without having been published

  datatype Phase =
    | Idle
    | Prepared(candidates: Sources)       // Reload has started its candidates
    | Closing(sources: set<string>)       // Close has emptied the manager, sources still registered
    | Published                           // holding the turns lock, old sources are gone

  datatype Manager = Manager(sources: set<string>, phase: Phase)

  datatype State = State(
    live: Sources, pinned: map<nat, Sources>, turns: Turns, lock: Option<nat>,
    managers: map<nat, Manager>, home: map<nat, Home>, closed: set<nat>)

  /** A tool of `client` is registered under source `s`. */
  ghost predicate ServedBy(sources: Sources, s: string, client: nat) {
    s in sources && exists n :: n in sources[s] && sources[s][n].client == Some(client)
  }

  ghost predicate Serves(sources: Sources, client: nat) {
    exists s :: ServedBy(sources, s, client)
  }

  predicate NoClients(source: Source) {
    forall n :: n in source ==> source[n].client == None
  }

  // ---- Steps ----

  datatype Action =
    | RegisterLocal(tool: Tool)
    | RegisterOther(name: string, source: Source)
    | TakeSnapshot
    | BeginRelease(id: nat)
    | RunCallback(id: nat)
    | Prepare(m: nat, candidates: Sources, clients: set<nat>)
    | Abort(m: nat)
    | Publish(m: nat)
    | BeginClose(m: nat)
    | Unregister(m: nat)
    | RegisterRetirement(m: nat)

  function Rehome(home: map<nat, Home>, from: Home, to: Home): map<nat, Home> {
    map c | c in home :: if home[c] == from then to else home[c]
  }

  function AtHome(home: map<nat, Home>, h: Home): set<nat> {
    set c | c in home && home[c] == h
  }

  ghost predicate Enabled(s: State, a: Action) {
    match a
    // Anybody may register tools that need no client, at any time and without the turns lock.
    case RegisterLocal(tool) => tool.client == None
    case RegisterOther(name, source) => NoClients(source)
    case TakeSnapshot => s.lock == None
    case BeginRelease(id) => s.lock == None && id in s.turns.leases.held
    case RunCallback(id) => id in s.turns.releasing && s.turns.releasing[id] != [] && CanReport(s.turns, id)
    case Prepare(m, candidates, clients) =>
      && m in s.managers && s.managers[m].phase == Idle
      && clients !! s.home.Keys && "" !in candidates
      && forall src, c :: ServedBy(candidates, src, c) ==> c in clients
    case Abort(m) => m in s.managers && s.managers[m].phase.Prepared?
    case Publish(m) => m in s.managers && s.managers[m].phase.Prepared? && s.lock == None
    case BeginClose(m) => m in s.managers && s.managers[m].phase == Idle
    case Unregister(m) => m in s.managers && s.managers[m].phase.Closing? && s.lock == None
    case RegisterRetirement(m) => m in s.managers && s.managers[m].phase == Published && s.lock == Some(m)
  }

  function Apply(s: State, a: Action): State
    requires Enabled(s, a)
  {
    match a
    case RegisterLocal(tool) => s.(live := Ensure(s.live)[LOCAL := SourceOf(s.live, LOCAL)[tool.name := tool]])
    case RegisterOther(name, source) => s.(live := Ensure(s.live)[Effective(name) := source])
    case TakeSnapshot => s.(pinned := s.pinned[s.turns.leases.snapshots := CloneExcluding(s.live, {})], turns := Take(s.turns))
    case BeginRelease(id) => s.(turns := Grab(s.turns, id))
    case RunCallback(id) =>
      var r := s.turns.releasing[id][0];
      s.(turns := Report(s.turns, id),
         closed := if s.turns.leases.remaining[r] - 1 == 0 then s.closed + AtHome(s.home, Retiring(r)) else s.closed)
    case Prepare(m, candidates, clients) =>
      s.(managers := s.managers[m := s.managers[m].(phase := Prepared(candidates))],
         home := s.home + map c | c in clients :: Candidate(m))
    case Abort(m) =>
      s.(managers := s.managers[m := s.managers[m].(phase := Idle)],
         home := Rehome(s.home, Candidate(m), Dropped), closed := s.closed + AtHome(s.home, Candidate(m)))
    case Publish(m) =>
      var candidates := s.managers[m].phase.candidates;
      s.(live := Replaced(s.live, candidates, s.managers[m].sources, candidates.Keys),
         managers := s.managers[m := Manager(candidates.Keys, Published)],
         home := Rehome(Rehome(s.home, Owned(m), Leaving(m)), Candidate(m), Owned(m)), lock := Some(m))
    case BeginClose(m) =>
      s.(managers := s.managers[m := Manager({}, Closing(s.managers[m].sources))], home := Rehome(s.home, Owned(m), Leaving(m)))
    case Unregister(m) =>
      s.(live := Ensure(s.live) - s.managers[m].phase.sources,
         managers := s.managers[m := s.managers[m].(phase := Published)], lock := Some(m))
    case RegisterRetirement(m) =>
      var r := |s.turns.waiting|;
      s.(turns := Retire(s.turns), managers := s.managers[m := s.managers[m].(phase := Idle)],
         home := Rehome(s.home, Leaving(m), Retiring(r)), lock := None,
         closed := if |s.turns.leases.held| == 0 then s.closed + AtHome(s.home, Leaving(m)) else s.closed)
  }

  ghost predicate Init(s: State) {
    && s.live == map[LOCAL := map[]] && s.pinned == map[] && s.turns == Turns(NoLeases(), map[], [], [])
    && s.lock == None && s.home == map[] && s.closed == {}
    && forall m :: m in s.managers ==> s.managers[m] == Manager({}, Idle)
  }

  // ---- Invariant ----

  /** A manager's phase says where its clients can be. */
  ghost predicate PhaseFits(s: State, c: nat) {
    c in s.home ==>
      match s.home[c]
      case Candidate(m) => m in s.managers && s.managers[m].phase.Prepared?
      case Owned(m) => m in s.managers
      case Leaving(m) => m in s.managers && (s.managers[m].phase.Closing? || s.managers[m].phase == Published)
      case Retiring(r) => r < |s.turns.waiting|
      case Dropped => true
  }

  /** Only clients in a manager's hands, or about to be unregistered, are reachable through the live catalog. */
  ghost predicate LiveServed(s: State, src: string, c: nat) {
    ServedBy(s.live, src, c) ==>
      && c in s.home
      && match s.home[c]
         case Owned(m) => m in s.managers && src in s.managers[m].sources
         case Leaving(m) => m in s.managers && s.managers[m].phase.Closing? && src in s.managers[m].phase.sources
         case _ => false
  }

  /** A snapshot that is out holds up the retirement of every client it can reach. */
  ghost predicate PinnedServed(s: State, id: nat, c: nat) {
    id in s.turns.leases.held && id in s.pinned && Serves(s.pinned[id], c) ==>
      && c in s.home
      && match s.home[c]
         case Owned(_) => true
         case Leaving(_) => true
         case Retiring(r) => r in s.turns.leases.held[id]
         case _ => false
  }

  /** Exactly the dropped and the cleaned-up clients are closed. */
  ghost predicate ClosedFits(s: State, c: nat) {
    c in s.closed <==>
      c in s.home && match s.home[c]
                     case Dropped => true
                     case Retiring(r) => r < |s.turns.cleaned| && s.turns.cleaned[r] == 1
                     case _ => false
  }

  ghost predicate LockFits(s: State, m: nat) {
    m in s.managers ==>
      && (s.managers[m].phase == Published <==> s.lock == Some(m))
      && "" !in s.managers[m].sources
      && (s.managers[m].phase.Closing? ==> "" !in s.managers[m].phase.sources)
      && (s.managers[m].phase.Prepared? ==>
            && "" !in s.managers[m].phase.candidates
            && forall src, c :: ServedBy(s.managers[m].phase.candidates, src, c) ==> c in s.home && s.home[c] == Candidate(m))
  }

  ghost predicate Consistent(s: State) {
    && TurnLeases.Inv(s.turns)
    && (forall c :: PhaseFits(s, c))
    && (forall src, c :: LiveServed(s, src, c))
    && (forall id, c :: PinnedServed(s, id, c))
    && (forall c :: ClosedFits(s, c))
    && (forall m :: LockFits(s, m))
    && (forall id :: id in s.turns.leases.held ==> id in s.pinned)
  }

  // ---- What the catalog operations do to reachability ----

  lemma ServedAfterEnsure(sources: Sources, src: string, c: nat)
    ensures ServedBy(Ensure(sources), src, c) <==> ServedBy(sources, src, c)
    ensures ServedBy(CloneExcluding(sources, {}), src, c) <==> ServedBy(sources, src, c)
  {
    var ensured: Sources := Ensure(sources);
    assert sources - {} == sources;
    if ServedBy(sources, src, c) {
      var n :| n in sources[src] && sources[src][n].client == Some(c);
      assert n in ensured[src] && ensured[src][n].client == Some(c);
    }
    if ServedBy(ensured, src, c) {
      var n :| n in ensured[src] && ensured[src][n].client == Some(c);
      assert n in sources[src] && sources[src][n].client == Some(c);
    }
  }

  lemma ServedAfterReplace(live: Sources, candidates: Sources, remove: set<string>, src: string, c: nat)
    ensures ServedBy(Replaced(live, candidates, remove, candidates.Keys), src, c) <==>
            if src in candidates then ServedBy(candidates, src, c) else src !in remove && ServedBy(live, src, c)
  {
  }

  lemma ServedAfterRegister(live: Sources, name: string, source: Source, tool: Tool, src: string, c: nat)
    requires NoClients(source) && tool.client == None
    ensures ServedBy(Ensure(live)[Effective(name) := source], src, c) ==> ServedBy(live, src, c)
    ensures ServedBy(Ensure(live)[LOCAL := SourceOf(live, LOCAL)[tool.name := tool]], src, c) ==> ServedBy(live, src, c)
  {
  }

  // ---- Every step keeps the invariant ----

  lemma RegisterKeeps(s: State, a: Action)
    requires Consistent(s) && Enabled(s, a) && (a.RegisterLocal? || a.RegisterOther?)
    ensures Consistent(Apply(s, a))
  {
    var s' := Apply(s, a);
    forall src, c ensures ServedBy(s'.live, src, c) ==> ServedBy(s.live, src, c) {
      match a
      case RegisterLocal(tool) => ServedAfterRegister(s.live, "", map[], tool, src, c);
      case RegisterOther(name, source) => ServedAfterRegister(s.live, name, source, Tool("", None), src, c);
    }
    hide ServedBy, Apply, TurnLeases.Inv, Serves;
    assert s' == s.(live := s'.live);
    forall src, c ensures LiveServed(s', src, c) {
      assert LiveServed(s, src, c);
    }
    Reframe(s, s');
  }

  /** Parts of the invariant that do not look at the live catalog. */
  lemma Reframe(s: State, s': State)
    requires Consistent(s) && s' == s.(live := s'.live) && forall src, c :: LiveServed(s', src, c)
    ensures Consistent(s')
  {
    hide TurnLeases.Inv, ServedBy, Serves, LiveServed;
    forall c ensures PhaseFits(s', c) && ClosedFits(s', c) {
      assert PhaseFits(s, c) && ClosedFits(s, c);
    }
    forall id, c ensures PinnedServed(s', id, c) {
      assert PinnedServed(s, id, c);
    }
    forall m ensures LockFits(s', m) {
      assert LockFits(s, m);
    }
  }

  lemma SnapshotKeeps(s: State)
    requires Consistent(s) && Enabled(s, TakeSnapshot)
    ensures Consistent(Apply(s, TakeSnapshot))
  {
    var s' := Apply(s, TakeSnapshot);
    var id' := s.turns.leases.snapshots;
    TakeKeeps(s.turns);
    assert s'.turns == Take(s.turns);
    hide TurnLeases.Inv;
    forall id, c ensures PinnedServed(s', id, c) {
      assert PinnedServed(s, id, c);
      if id == id' && Serves(s'.pinned[id], c) {
        var src :| ServedBy(s'.pinned[id], src, c);
        ServedAfterEnsure(s.live, src, c);
        assert LiveServed(s, src, c);
      }
    }
    hide ServedBy, Serves;
    forall c ensures PhaseFits(s', c) && ClosedFits(s', c) {
      assert PhaseFits(s, c) && ClosedFits(s, c);
    }
    forall src, c ensures LiveServed(s', src, c) {
      assert LiveServed(s, src, c);
    }
    forall m ensures LockFits(s', m) {
      assert LockFits(s, m);
    }
  }

  lemma ReleaseKeeps(s: State, id: nat)
    requires Consistent(s) && Enabled(s, Action.BeginRelease(id))
    ensures Consistent(Apply(s, Action.BeginRelease(id)))
  {
    var s' := Apply(s, Action.BeginRelease(id));
    GrabKeeps(s.turns, id);
    hide TurnLeases.Inv, ServedBy, Serves;
    forall k, c ensures PinnedServed(s', k, c) {
      assert PinnedServed(s, k, c);
    }
    forall c ensures PhaseFits(s', c) && ClosedFits(s', c) {
      assert PhaseFits(s, c) && ClosedFits(s, c);
    }
    forall src, c ensures LiveServed(s', src, c) {
      assert LiveServed(s, src, c);
    }
    forall m ensures LockFits(s', m) {
      assert LockFits(s, m);
    }
  }

  lemma CallbackCloses(s: State, id: nat, c: nat)
    requires Consistent(s) && Enabled(s, RunCallback(id))
    ensures PhaseFits(Apply(s, RunCallback(id)), c) && ClosedFits(Apply(s, RunCallback(id)), c)
  {
    ReportedOnce(s.turns, id);
    assert PhaseFits(s, c) && ClosedFits(s, c);
    hide TurnLeases.Inv, Consistent, LiveServed, PinnedServed, LockFits;
  }

  lemma CallbackKeeps(s: State, id: nat)
    requires Consistent(s) && Enabled(s, RunCallback(id))
    ensures Consistent(Apply(s, RunCallback(id)))
  {
    var s' := Apply(s, RunCallback(id));
    ReportKeeps(s.turns, id);
    forall c ensures PhaseFits(s', c) && ClosedFits(s', c) {
      CallbackCloses(s, id, c);
    }
    hide TurnLeases.Inv, ServedBy, Serves, PhaseFits, ClosedFits;
    forall k, c ensures PinnedServed(s', k, c) {
      assert PinnedServed(s, k, c);
    }
    forall src, c ensures LiveServed(s', src, c) {
      assert LiveServed(s, src, c);
    }
    forall m ensures LockFits(s', m) {
      assert LockFits(s, m);
    }
  }

  /** The callback that brings the counter down is the one that makes the cleanup count one. */
  lemma ReportedOnce(t: Turns, id: nat)
    requires TurnLeases.Inv(t) && id in t.releasing && t.releasing[id] != []
    ensures CanReport(t, id)
    ensures var r := t.releasing[id][0];
            && t.cleaned[r] == 0
            && Report(t, id).cleaned[r] == if t.leases.remaining[r] - 1 == 0 then 1 else 0
  {
    ReportOwes(t, id);
    hide Owes, Outstanding;
  }

  lemma PrepareKeeps(s: State, m: nat, candidates: Sources, clients: set<nat>)
    requires Consistent(s) && Enabled(s, Prepare(m, candidates, clients))
    ensures Consistent(Apply(s, Prepare(m, candidates, clients)))
  {
    var s' := Apply(s, Prepare(m, candidates, clients));
    hide TurnLeases.Inv, ServedBy, Serves;
    forall k, c ensures PinnedServed(s', k, c) {
      assert PinnedServed(s, k, c);
    }
    forall c ensures PhaseFits(s', c) && ClosedFits(s', c) {
      assert PhaseFits(s, c) && ClosedFits(s, c);
    }
    forall src, c ensures LiveServed(s', src, c) {
      assert LiveServed(s, src, c);
    }
    forall k ensures LockFits(s', k) {
      assert LockFits(s, k);
    }
  }

  lemma AbortKeeps(s: State, m: nat)
    requires Consistent(s) && Enabled(s, Abort(m))
    ensures Consistent(Apply(s, Abort(m)))
  {
    var s' := Apply(s, Abort(m));
    hide TurnLeases.Inv, ServedBy, Serves;
    forall k, c ensures PinnedServed(s', k, c) {
      assert PinnedServed(s, k, c);
    }
    forall c ensures PhaseFits(s', c) && ClosedFits(s', c) {
      assert PhaseFits(s, c) && ClosedFits(s, c);
    }
    forall src, c ensures LiveServed(s', src, c) {
      assert LiveServed(s, src, c);
    }
    forall k ensures LockFits(s', k) {
      assert LockFits(s, k);
    }
  }

  lemma PublishServes(s: State, m: nat, src: string, c: nat)
    requires Consistent(s) && Enabled(s, Publish(m))
    ensures LiveServed(Apply(s, Publish(m)), src, c)
  {
    assert LockFits(s, m) && LiveServed(s, src, c);
    hide TurnLeases.Inv, ServedBy, Serves, Consistent, PinnedServed, PhaseFits, ClosedFits;
    ServedAfterReplace(s.live, s.managers[m].phase.candidates, s.managers[m].sources, src, c);
  }

  lemma PublishKeeps(s: State, m: nat)
    requires Consistent(s) && Enabled(s, Publish(m))
    ensures Consistent(Apply(s, Publish(m)))
  {
    var s' := Apply(s, Publish(m));
    assert LockFits(s, m);
    forall src, c ensures LiveServed(s', src, c) {
      PublishServes(s, m, src, c);
    }
    hide TurnLeases.Inv, ServedBy, Serves, Replaced, LiveServed;
    forall k, c ensures PinnedServed(s', k, c) {
      assert PinnedServed(s, k, c);
    }
    forall c ensures PhaseFits(s', c) && ClosedFits(s', c) {
      assert PhaseFits(s, c) && ClosedFits(s, c);
    }
    forall k ensures LockFits(s', k) {
      assert LockFits(s, k);
    }
  }

  lemma BeginCloseKeeps(s: State, m: nat)
    requires Consistent(s) && Enabled(s, BeginClose(m))
    ensures Consistent(Apply(s, BeginClose(m)))
  {
    var s' := Apply(s, BeginClose(m));
    hide TurnLeases.Inv, ServedBy, Serves;
    forall k, c ensures PinnedServed(s', k, c) {
      assert PinnedServed(s, k, c);
    }
    forall c ensures PhaseFits(s', c) && ClosedFits(s', c) {
      assert PhaseFits(s, c) && ClosedFits(s, c);
    }
    forall src, c ensures LiveServed(s', src, c) {
      assert LiveServed(s, src, c);
      assert c in s.home ==> PhaseFits(s, c);
    }
    forall k ensures LockFits(s', k) {
      assert LockFits(s, k);
    }
  }

  lemma UnregisterKeeps(s: State, m: nat)
    requires Consistent(s) && Enabled(s, Unregister(m))
    ensures Consistent(Apply(s, Unregister(m)))
  {
    var s' := Apply(s, Unregister(m));
    assert LockFits(s, m);
    forall src, c ensures LiveServed(s', src, c) {
      ServedAfterEnsure(s.live, src, c);
      assert LiveServed(s, src, c);
    }
    hide TurnLeases.Inv, ServedBy, Serves;
    forall k, c ensures PinnedServed(s', k, c) {
      assert PinnedServed(s, k, c);
    }
    forall c ensures PhaseFits(s', c) && ClosedFits(s', c) {
      assert PhaseFits(s, c) && ClosedFits(s, c);
    }
    forall k ensures LockFits(s', k) {
      assert LockFits(s, k);
    }
  }

  lemma RetirementServes(s: State, m: nat)
    requires Consistent(s) && Enabled(s, RegisterRetirement(m))
    ensures var s' := Apply(s, RegisterRetirement(m));
            && (forall k, c :: PinnedServed(s', k, c))
            && (forall src, c :: LiveServed(s', src, c))
  {
    var s' := Apply(s, RegisterRetirement(m));
    assert Shape(s.turns);
    hide TurnLeases.Inv, ServedBy, Serves, PhaseFits, ClosedFits;
    forall k, c ensures PinnedServed(s', k, c) {
      assert PinnedServed(s, k, c);
    }
    forall src, c ensures LiveServed(s', src, c) {
      assert LiveServed(s, src, c);
      assert LockFits(s, m);
    }
  }

  lemma RetirementKeeps(s: State, m: nat)
    requires Consistent(s) && Enabled(s, RegisterRetirement(m))
    ensures Consistent(Apply(s, RegisterRetirement(m)))
  {
    var s' := Apply(s, RegisterRetirement(m));
    RetireKeeps(s.turns);
    RetirementServes(s, m);
    hide TurnLeases.Inv, ServedBy, Serves, PinnedServed, LiveServed, PhaseFits, ClosedFits;
    forall c ensures PhaseFits(s', c) && ClosedFits(s', c) {
      RetirementCloses(s, m, c);
    }
    forall k ensures LockFits(s', k) {
      assert LockFits(s, k);
    }
  }

  lemma RetirementCloses(s: State, m: nat, c: nat)
    requires Consistent(s) && Enabled(s, RegisterRetirement(m))
    ensures PhaseFits(Apply(s, RegisterRetirement(m)), c) && ClosedFits(Apply(s, RegisterRetirement(m)), c)
  {
    assert Shape(s.turns) && PhaseFits(s, c) && ClosedFits(s, c) && LockFits(s, m);
    hide TurnLeases.Inv, Consistent, LiveServed, PinnedServed;
  }

  lemma ApplyKeeps(s: State, a: Action)
    requires Consistent(s) && Enabled(s, a)
    ensures Consistent(Apply(s, a))
  {
    hide Consistent, Apply;
    match a {
      case RegisterLocal(_) => RegisterKeeps(s, a);
      case RegisterOther(_, _) => RegisterKeeps(s, a);
      case TakeSnapshot => SnapshotKeeps(s);
      case BeginRelease(id) => ReleaseKeeps(s, id);
      case RunCallback(id) => CallbackKeeps(s, id);
      case Prepare(m, candidates, clients) => PrepareKeeps(s, m, candidates, clients);
      case Abort(m) => AbortKeeps(s, m);
      case Publish(m) => PublishKeeps(s, m);
      case BeginClose(m) => BeginCloseKeeps(s, m);
      case Unregister(m) => UnregisterKeeps(s, m);
      case RegisterRetirement(m) => RetirementKeeps(s, m);
    }
  }

  lemma InitIsInv(s: State)
    requires Init(s)
    ensures Consistent(s)
  {
  }
}
