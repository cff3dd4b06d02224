/** What holds in every run of snapshots, releases, reloads and closings. */
module RuntimeSafety {
  import opened Text
  import opened ToolCatalog
  import opened TurnLeases
  import opened RuntimeRetirement

  ghost predicate Next(s: State, s': State) {
    exists a :: Enabled(s, a) && s' == Apply(s, a)
  }

  ghost predicate IsRun(run: seq<State>) {
    run != [] && Init(run[0]) && forall i :: 0 <= i < |run| - 1 ==> Next(run[i], run[i + 1])
  }

  lemma {:induction false} RunKeeps(run: seq<State>, i: nat)
    requires IsRun(run) && i < |run|
    ensures Consistent(run[i])
  {
    hide Consistent, Apply, Enabled, Init;
    if i == 0 {
      InitIsInv(run[0]);
    } else {
      RunKeeps(run, i - 1);
      var s, s' := run[i - 1], run[i];
      assert Next(s, s');
      var a :| Enabled(s, a) && s' == Apply(s, a);
      ApplyKeeps(s, a);
    }
  }

  /** At every moment of every run, nobody can reach a closed client: not the live catalog, not a snapshot that is out. */
  lemma NoClosedClientIsReachable(run: seq<State>, i: nat, c: nat)
    requires IsRun(run) && i < |run| && c in run[i].closed
    ensures !Serves(run[i].live, c)
    ensures forall id :: id in run[i].turns.leases.held && id in run[i].pinned ==> !Serves(run[i].pinned[id], c)
  {
    RunKeeps(run, i);
    var s := run[i];
    assert ClosedFits(s, c);
    hide IsRun;
    forall src ensures !ServedBy(s.live, src, c) {
      assert LiveServed(s, src, c);
    }
    forall id | id in s.turns.leases.held && id in s.pinned ensures !Serves(s.pinned[id], c) {
      assert PinnedServed(s, id, c);
      ClosedIsNotPinned(s, id, c);
    }
  }

  /** A cleanup that ran was not owed by any snapshot that is out. */
  lemma ClosedIsNotPinned(s: State, id: nat, c: nat)
    requires Consistent(s) && c in s.closed && id in s.turns.leases.held && id in s.pinned
    ensures !Serves(s.pinned[id], c)
  {
    assert ClosedFits(s, c) && PinnedServed(s, id, c);
    if Serves(s.pinned[id], c) {
      var r := s.home[c].retirement;
      assert r in Owes(s.turns, id);
      CleanupIsExact(s.turns, r);
    }
  }

  /** A retirement's cleanup runs at most once, and as soon as no snapshot taken before the publication is out or still reporting. */
  lemma CleanupRunsOnce(run: seq<State>, i: nat, r: nat)
    requires IsRun(run) && i < |run| && r < |run[i].turns.waiting|
    ensures r < |run[i].turns.cleaned| && run[i].turns.cleaned[r] <= 1
    ensures run[i].turns.cleaned[r] == 1 <==>
            forall id :: id in run[i].turns.waiting[r] ==> !StillReports(run[i].turns, id, r)
  {
    RunKeeps(run, i);
    CleanupIsExact(run[i].turns, r);
    CleanupWaits(run[i].turns, r);
  }

  /** The snapshot is out, or its release has not yet run the callback of `r`. */
  ghost predicate StillReports(t: Turns, id: nat, r: nat) {
    id in t.leases.held || (id in t.releasing && r in t.releasing[id])
  }

  lemma CleanupWaits(t: Turns, r: nat)
    requires TurnLeases.Inv(t) && r < |t.waiting|
    ensures t.cleaned[r] == 1 <==> forall id :: id in t.waiting[r] ==> !StillReports(t, id, r)
  {
    CleanupIsExact(t, r);
    forall id | id in t.waiting[r] && StillReports(t, id, r) ensures id in Outstanding(t, r) {
      assert r in Owes(t, id);
    }
  }

  lemma WaitingStep(s: State, a: Action)
    requires Enabled(s, a)
    ensures Apply(s, a).turns.waiting == if a.RegisterRetirement? then s.turns.waiting + [s.turns.leases.held.Keys] else s.turns.waiting
  {
  }

  /** Retirement `r` waits for the snapshots in `ids`. */
  predicate WaitsFor(s: State, r: nat, ids: set<nat>) {
    r < |s.turns.waiting| && s.turns.waiting[r] == ids
  }

  /**
   * A retirement waits for exactly the snapshots that were out when it was registered, and for the rest of the
   * run for no others: snapshots taken later never hold it up.
   */
  lemma {:induction false} WaitsForEarlierSnapshots(run: seq<State>, k: nat, i: nat, m: nat)
    requires IsRun(run) && k < i < |run|
    requires Enabled(run[k], RegisterRetirement(m)) && run[k + 1] == Apply(run[k], RegisterRetirement(m))
    ensures WaitsFor(run[i], |run[k].turns.waiting|, run[k].turns.leases.held.Keys)
  {
    hide Apply, Enabled, Init;
    if i == k + 1 {
      WaitingStep(run[k], RegisterRetirement(m));
    } else {
      WaitsForEarlierSnapshots(run, k, i - 1, m);
      assert Next(run[i - 1], run[i]);
      var a :| Enabled(run[i - 1], a) && run[i] == Apply(run[i - 1], a);
      WaitingStep(run[i - 1], a);
    }
  }

  /** No snapshot is taken and none is released between a publication and the registration of its retirement. */
  lemma PublicationIsAtomicForTurns(s: State, a: Action, m: nat)
    requires Consistent(s) && m in s.managers && s.managers[m].phase == Published
    requires Enabled(s, a)
    ensures a == RegisterRetirement(m) || (Apply(s, a).turns.leases.held == s.turns.leases.held && m in Apply(s, a).managers && Apply(s, a).managers[m] == s.managers[m])
  {
    assert LockFits(s, m);
    if a.RegisterRetirement? {
      assert LockFits(s, a.m);
    }
  }

  /** No step but taking it writes a snapshot, and its number is never given out again. */
  lemma PinnedStep(s: State, a: Action, id: nat)
    requires Enabled(s, a) && id < s.turns.leases.snapshots && id in s.pinned
    ensures var s' := Apply(s, a); s.turns.leases.snapshots <= s'.turns.leases.snapshots && id in s'.pinned && s'.pinned[id] == s.pinned[id]
  {
  }

  lemma TakeStep(s: State)
    requires Enabled(s, TakeSnapshot)
    ensures var s' := Apply(s, TakeSnapshot);
            && s'.turns.leases.snapshots == s.turns.leases.snapshots + 1
            && s'.pinned == s.pinned[s.turns.leases.snapshots := CloneExcluding(s.live, {})]
  {
  }

  /** A turn keeps the catalog it was given: whatever happens later, its snapshot has the sources of that moment, tool by tool. */
  lemma {:induction false} SnapshotIsKept(run: seq<State>, k: nat, i: nat)
    requires IsRun(run) && k < i < |run|
    requires Enabled(run[k], TakeSnapshot) && run[k + 1] == Apply(run[k], TakeSnapshot)
    ensures var id := run[k].turns.leases.snapshots;
            && id < run[i].turns.leases.snapshots && id in run[i].pinned
            && Copies(run[k].live, {}, run[i].pinned[id])
  {
    hide Apply, Enabled, Init, Copies, CloneExcluding;
    var id := run[k].turns.leases.snapshots;
    if i == k + 1 {
      ClonedCopies(run[k].live, {});
      TakeStep(run[k]);
    } else {
      SnapshotIsKept(run, k, i - 1);
      assert Next(run[i - 1], run[i]);
      var a :| Enabled(run[i - 1], a) && run[i] == Apply(run[i - 1], a);
      PinnedStep(run[i - 1], a, id);
    }
  }
}
