/** Folding many recorded file changes of one task into one net change set. */
module TaskRecorder {
  import opened Text

  /** A file as it was; the content is kept only when `available`. */
  datatype FileSnapshot = FileSnapshot(
    path: string, size: int, hash: string, content: string, binary: bool, tooLarge: bool, mode: int, available: bool)

  /** `None` is a file that does not exist. */
  type File = Option<FileSnapshot>

  datatype FileChange = FileChange(path: string, changeType: string, before: File, after: File, createdAt: int)

  type Workspace = map<string, FileSnapshot>

  type Changes = map<string, FileChange>

  function At(w: Workspace, p: string): File {
    if p in w then Some(w[p]) else None
  }

  predicate Changed(before: File, after: File) {
    if before.None? && after.None? then false
    else if before.None? || after.None? then true
    else
      || before.value.size != after.value.size
      || before.value.hash != after.value.hash
      || before.value.binary != after.value.binary
      || before.value.tooLarge != after.value.tooLarge
  }

  function ChangeType(before: File, after: File): string {
    if before.None? && after.Some? then "added"
    else if before.Some? && after.None? then "deleted"
    else "modified"
  }

  /** The change of one file between two states of it. */
  function Diff(p: string, before: File, after: File): FileChange {
    FileChange(p, ChangeType(before, after), before, after, 0)
  }

  function Entry(changes: Changes, p: string): Option<FileChange> {
    if p in changes then Some(changes[p]) else None
  }

  /** The entry of a path after one more change of it. */
  function Merge(existing: Option<FileChange>, change: FileChange): Option<FileChange> {
    match existing
    case None => Some(change)
    case Some(e) =>
      if Changed(e.before, change.after)
      then Some(FileChange(change.path, ChangeType(e.before, change.after), e.before, change.after, e.createdAt))
      else None
  }

  function Put(changes: Changes, p: string, entry: Option<FileChange>): Changes {
    match entry
    case None => changes - {p}
    case Some(e) => changes[p := e]
  }

  /** The entry of a path after a whole step of the workspace from `before` to `after` has been recorded. */
  function StepEntry(changes: Changes, p: string, before: Workspace, after: Workspace): Option<FileChange> {
    if Changed(At(before, p), At(after, p))
    then Merge(Entry(changes, p), Diff(p, At(before, p), At(after, p)))
    else Entry(changes, p)
  }

  /** `done` is the part of the step that has been recorded. */
  ghost predicate Recorded(changes: Changes, changes': Changes, before: Workspace, after: Workspace, done: set<string>) {
    forall p :: Entry(changes', p) == if p in done then StepEntry(changes, p, before, after) else Entry(changes, p)
  }

  ghost predicate RecordedStep(changes: Changes, changes': Changes, before: Workspace, after: Workspace) {
    forall p :: Entry(changes', p) == StepEntry(changes, p, before, after)
  }

  function FirstIndex(order: seq<string>, p: string): (i: nat)
    ensures i <= |order|
    ensures i < |order| <==> p in order
    ensures i < |order| ==> order[i] == p && p !in order[..i]
  {
    if order == [] then 0 else if order[0] == p then 0 else 1 + FirstIndex(order[1..], p)
  }

  /** Entries are filed under their path, say what they change, and have been listed. */
  ghost predicate Consistent(changes: Changes, order: seq<string>) {
    forall p :: p in changes ==>
      && p in order
      && changes[p].path == p
      && Changed(changes[p].before, changes[p].after)
      && changes[p].changeType == ChangeType(changes[p].before, changes[p].after)
  }

  class WorkspaceLog {
    var changes: Changes
    var order: seq<string>
    var saved: bool

    constructor ()
      ensures changes == map[] && order == [] && !saved
    {
      changes, order, saved := map[], [], false;
    }

    /** Keeps the first `before` and the last `after` of a path. */
    method AddChange(change: FileChange)
      modifies this`changes, this`order
      ensures changes == Put(old(changes), change.path, Merge(Entry(old(changes), change.path), change))
      ensures order == if change.path in old(changes) then old(order) else old(order) + [change.path]
      ensures change.path in old(changes) && change.path in changes ==>
        && changes[change.path].before == old(changes)[change.path].before && changes[change.path].after == change.after
        && changes[change.path].createdAt == old(changes)[change.path].createdAt
    {
      if change.path !in changes {
        order := order + [change.path];
        changes := changes[change.path := change];
        return;
      }
      var existing := changes[change.path];
      var merged := FileChange(change.path, "", existing.before, change.after, existing.createdAt);
      merged := merged.(changeType := ChangeType(merged.before, merged.after));
      if !Changed(merged.before, merged.after) {
        changes := changes - {change.path};
        return;
      }
      changes := changes[change.path := merged];
    }

    /** Records one file that went from `before` to `after`. */
    method RecordFileChange(path: string, before: File, after: File)
      requires Consistent(changes, order)
      modifies this`changes, this`order
      ensures Consistent(changes, order)
      ensures changes == if Changed(before, after)
                         then Put(old(changes), path, Merge(Entry(old(changes), path), Diff(path, before, after)))
                         else old(changes)
      ensures path !in old(changes) ==>
              && (path in changes <==> Changed(before, after))
              && (path in changes ==>
                    && changes[path].path == path && changes[path].before == before && changes[path].after == after
                    && changes[path].changeType == (if before.None? then "added" else if after.None? then "deleted" else "modified"))
    {
      if !Changed(before, after) {
        return;
      }
      AddChange(Diff(path, before, after));
    }

    /** Records everything that differs between two states of the workspace, in any order. */
    method RecordWorkspaceChanges(before: Workspace, after: Workspace) returns (changed: nat)
      requires Consistent(changes, order)
      modifies this`changes, this`order
      ensures Consistent(changes, order)
      ensures RecordedStep(old(changes), changes, before, after)
      ensures changed == |Differing(before, after, before.Keys + after.Keys)|
    {
      hide Consistent, Changed, Recorded, RecordedStep;
      changed := RecordDeleted(before, after);
      ghost var done := before.Keys - after.Keys;
      var rest := after.Keys;
      while rest != {}
        invariant rest <= after.Keys && done == (before.Keys + after.Keys) - rest
        invariant Consistent(changes, order)
        invariant Recorded(old(changes), changes, before, after, done)
        invariant changed == |Differing(before, after, done)|
        decreases rest
      {
        var path :| path in rest;
        rest := rest - {path};
        if path in before && !Changed(Some(before[path]), Some(after[path])) {
          SkipPath(old(changes), changes, before, after, path, done);
          done := done + {path};
          continue;
        }
        RecordPath(before, after, path, done, old(changes));
        changed := changed + 1;
        done := done + {path};
      }
      assert done == before.Keys + after.Keys;
      StepIsWhole(old(changes), changes, before, after, done);
    }

    /** The first loop: files that are gone. */
    method RecordDeleted(before: Workspace, after: Workspace) returns (changed: nat)
      requires Consistent(changes, order)
      modifies this`changes, this`order
      ensures Consistent(changes, order)
      ensures Recorded(old(changes), changes, before, after, before.Keys - after.Keys)
      ensures changed == |Differing(before, after, before.Keys - after.Keys)|
    {
      changed := 0;
      ghost var done: set<string> := {};
      NothingRecorded(changes, before, after);
      hide *;
      var rest := before.Keys;
      assert done == before.Keys - rest - after.Keys;
      while rest != {}
        invariant rest <= before.Keys && done == before.Keys - rest - after.Keys
        invariant Consistent(changes, order) && Recorded(old(changes), changes, before, after, done)
        invariant changed == |Differing(before, after, done)|
        decreases rest
      {
        var path :| path in rest;
        OneLess(before.Keys, rest, path, after.Keys);
        rest := rest - {path};
        if path in after {
          continue;
        }
        RecordPath(before, after, path, done, old(changes));
        changed := changed + 1;
        done := done + {path};
      }
      assert done == before.Keys - after.Keys;
    }

    /** The body of both loops: one path that differs. */
    method RecordPath(before: Workspace, after: Workspace, path: string, ghost done: set<string>, ghost start: Changes)
      requires path !in done
      requires path in before || path in after
      requires path in before && path in after ==> Changed(At(before, path), At(after, path))
      requires Consistent(changes, order) && Recorded(start, changes, before, after, done)
      modifies this`changes, this`order
      ensures Consistent(changes, order) && Recorded(start, changes, before, after, done + {path})
      ensures |Differing(before, after, done + {path})| == |Differing(before, after, done)| + 1
    {
      assert Changed(At(before, path), At(after, path));
      DifferingGrows(before, after, path, done);
      hide Consistent, Recorded, Changed, ChangeType, Differing, At;
      PutKeepsConsistent(changes, order, Diff(path, At(before, path), At(after, path)));
      PutRecords(start, changes, before, after, path, done);
      AddChange(Diff(path, At(before, path), At(after, path)));
    }

    /** The net changes in the order their paths were first touched. */
    method OrderedTaskChanges() returns (result: seq<FileChange>)
      requires Consistent(changes, order)
      ensures forall p :: p in changes ==> changes[p] in result
      ensures forall c :: c in result ==> c.path in changes && c == changes[c.path]
      ensures forall i, j :: 0 <= i < j < |result| ==> FirstIndex(order, result[i].path) < FirstIndex(order, result[j].path)
    {
      result := [];
      var seen: set<string> := {};
      var k := 0;
      NothingListed(changes, order);
      hide Consistent, FirstIndex, Changed, ChangeType, Listed;
      while k < |order|
        invariant 0 <= k <= |order|
        invariant forall p :: p in seen <==> FirstIndex(order, p) < k
        invariant Listed(changes, order, k, result)
      {
        var path := order[k];
        FirstIndexAt(order, k);
        NextListed(changes, order, k, result);
        k := k + 1;
        if path in seen {
          continue;
        }
        seen := seen + {path};
        if path !in changes || !Changed(changes[path].before, changes[path].after) {
          continue;
        }
        var change := changes[path].(changeType := ChangeType(changes[path].before, changes[path].after));
        result := result + [change];
      }
      AllListed(changes, order, result);
    }

    /**
     * Hands the change set to the store once. The flag is set before the store is asked, so a store that fails
     * leaves nothing to save: a second call hands out nothing and reports no error.
     */
    method Save(storeFails: bool) returns (ok: bool, handed: seq<FileChange>)
      requires Consistent(changes, order)
      modifies this`saved
      ensures saved
      ensures old(saved) ==> ok && handed == []
      ensures !old(saved) ==> forall p :: p in changes ==> changes[p] in handed
      ensures !old(saved) ==> forall c :: c in handed ==> c.path in changes && c == changes[c.path]
      ensures !old(saved) ==> (ok <==> changes == map[] || !storeFails)
    {
      if saved {
        return true, [];
      }
      saved := true;
      handed := OrderedTaskChanges();
      assert handed == [] <==> changes == map[] by {
        assert handed != [] ==> handed[0] in handed;
        assert changes != map[] ==> exists p :: p in changes;
      }
      if |handed| == 0 {
        return true, handed;
      }
      ok := !storeFails;
    }
  }

  /** The paths among `paths` that differ between two states. */
  ghost function Differing(before: Workspace, after: Workspace, paths: set<string>): set<string> {
    set p | p in paths && Changed(At(before, p), At(after, p))
  }

  /** `result` lists the net changes of the paths that are first touched before position `k`, in that order. */
  ghost predicate Listed(changes: Changes, order: seq<string>, k: nat, result: seq<FileChange>) {
    HasUpto(changes, order, k, result) && InTouchOrder(order, result)
  }

  /** Exactly the entries of paths first touched among the first `k`. */
  ghost predicate HasUpto(changes: Changes, order: seq<string>, k: nat, result: seq<FileChange>) {
    && (forall c :: c in result ==> c.path in changes && c == changes[c.path] && FirstIndex(order, c.path) < k)
    && (forall p :: p in changes && FirstIndex(order, p) < k ==> changes[p] in result)
  }

  ghost predicate InTouchOrder(order: seq<string>, result: seq<FileChange>) {
    forall i, j :: 0 <= i < j < |result| ==> FirstIndex(order, result[i].path) < FirstIndex(order, result[j].path)
  }

  lemma NothingListed(changes: Changes, order: seq<string>)
    ensures Listed(changes, order, 0, []) && forall p :: FirstIndex(order, p) >= 0
  {
  }

  /** The path at `k` is a new entry exactly when it is touched there first and has a net change. */
  lemma NextListed(changes: Changes, order: seq<string>, k: nat, result: seq<FileChange>)
    requires Consistent(changes, order) && k < |order| && Listed(changes, order, k, result)
    ensures forall p :: FirstIndex(order, p) < k + 1 <==> FirstIndex(order, p) < k || p == order[k]
    ensures order[k] in changes ==>
            var change := changes[order[k]];
            Changed(change.before, change.after) && change.changeType == ChangeType(change.before, change.after)
    ensures Listed(changes, order, k + 1,
                   if FirstIndex(order, order[k]) < k || order[k] !in changes then result else result + [changes[order[k]]])
  {
    FirstIndexStep(order, k);
    hide FirstIndex, Changed, ChangeType, Listed;
    if FirstIndex(order, order[k]) < k || order[k] !in changes {
      SkipListed(changes, order, k, result);
    } else {
      OneListed(changes, order, k, result);
    }
  }

  lemma SkipListed(changes: Changes, order: seq<string>, k: nat, result: seq<FileChange>)
    requires k < |order| && Listed(changes, order, k, result) && (FirstIndex(order, order[k]) < k || order[k] !in changes)
    requires forall p :: FirstIndex(order, p) < k + 1 <==> FirstIndex(order, p) < k || p == order[k]
    ensures Listed(changes, order, k + 1, result)
  {
    hide FirstIndex;
  }

  lemma OneListed(changes: Changes, order: seq<string>, k: nat, result: seq<FileChange>)
    requires k < |order| && Listed(changes, order, k, result)
    requires order[k] in changes && changes[order[k]].path == order[k] && FirstIndex(order, order[k]) >= k
    requires forall p :: FirstIndex(order, p) < k + 1 <==> FirstIndex(order, p) < k || p == order[k]
    ensures Listed(changes, order, k + 1, result + [changes[order[k]]])
  {
    hide FirstIndex, HasUpto, InTouchOrder;
    HasOneMore(changes, order, k, result);
    OrderGrows(changes, order, k, result, changes[order[k]]);
  }

  lemma HasOneMore(changes: Changes, order: seq<string>, k: nat, result: seq<FileChange>)
    requires k < |order| && order[k] in changes && changes[order[k]].path == order[k] && HasUpto(changes, order, k, result)
    requires forall p :: FirstIndex(order, p) < k + 1 <==> FirstIndex(order, p) < k || p == order[k]
    ensures HasUpto(changes, order, k + 1, result + [changes[order[k]]])
  {
    hide FirstIndex;
    assert forall c :: c in result + [changes[order[k]]] <==> c in result || c == changes[order[k]];
  }

  lemma OrderGrows(changes: Changes, order: seq<string>, k: nat, result: seq<FileChange>, change: FileChange)
    requires InTouchOrder(order, result) && HasUpto(changes, order, k, result) && FirstIndex(order, change.path) >= k
    ensures InTouchOrder(order, result + [change])
  {
    hide FirstIndex;
    forall i | 0 <= i < |result| ensures FirstIndex(order, result[i].path) < FirstIndex(order, change.path) {
      assert result[i] in result;
    }
  }

  lemma FirstIndexStep(order: seq<string>, k: nat)
    requires k < |order|
    ensures forall p :: FirstIndex(order, p) < k + 1 <==> FirstIndex(order, p) < k || p == order[k]
  {
    FirstIndexAt(order, k);
  }

  lemma AllListed(changes: Changes, order: seq<string>, result: seq<FileChange>)
    requires Consistent(changes, order) && Listed(changes, order, |order|, result)
    ensures forall p :: p in changes ==> changes[p] in result
    ensures forall c :: c in result ==> c.path in changes && c == changes[c.path]
    ensures forall i, j :: 0 <= i < j < |result| ==> FirstIndex(order, result[i].path) < FirstIndex(order, result[j].path)
  {
    hide Changed, ChangeType;
  }

  lemma NothingRecorded(changes: Changes, before: Workspace, after: Workspace)
    ensures Recorded(changes, changes, before, after, {}) && |Differing(before, after, {})| == 0
  {
  }

  lemma OneLess(all: set<string>, rest: set<string>, path: string, others: set<string>)
    requires path in rest && rest <= all
    ensures all - (rest - {path}) - others == (all - rest - others) + (if path in others then {} else {path})
    ensures path !in all - rest - others
  {
  }

  lemma DifferingGrows(before: Workspace, after: Workspace, path: string, done: set<string>)
    requires path !in done && Changed(At(before, path), At(after, path))
    ensures |Differing(before, after, done + {path})| == |Differing(before, after, done)| + 1
  {
    hide Changed;
    assert Differing(before, after, done + {path}) == Differing(before, after, done) + {path};
  }

  lemma PutKeepsConsistent(changes: Changes, order: seq<string>, change: FileChange)
    requires Consistent(changes, order)
    requires Changed(change.before, change.after) && change.changeType == ChangeType(change.before, change.after)
    ensures Consistent(Put(changes, change.path, Merge(Entry(changes, change.path), change)),
                       if change.path in changes then order else order + [change.path])
  {
  }

  lemma PutRecords(changes: Changes, changes': Changes, before: Workspace, after: Workspace, path: string, done: set<string>)
    requires Recorded(changes, changes', before, after, done) && path !in done
    requires Changed(At(before, path), At(after, path))
    ensures Recorded(changes, Put(changes', path, Merge(Entry(changes', path), Diff(path, At(before, path), At(after, path)))),
                     before, after, done + {path})
  {
  }

  lemma SkipPath(changes: Changes, changes': Changes, before: Workspace, after: Workspace, path: string, done: set<string>)
    requires Recorded(changes, changes', before, after, done) && path !in done
    requires !Changed(At(before, path), At(after, path))
    ensures Recorded(changes, changes', before, after, done + {path})
    ensures Differing(before, after, done + {path}) == Differing(before, after, done)
  {
  }

  lemma StepIsWhole(changes: Changes, changes': Changes, before: Workspace, after: Workspace, done: set<string>)
    requires Recorded(changes, changes', before, after, done) && done == before.Keys + after.Keys
    ensures RecordedStep(changes, changes', before, after)
  {
  }

  lemma {:induction false} FirstIndexAt(order: seq<string>, k: nat)
    requires k < |order|
    ensures FirstIndex(order, order[k]) <= k
    ensures forall p :: FirstIndex(order, p) == k ==> p == order[k]
  {
  }

  // ---- Composition ----

  /** States of a file that a checkpoint cannot tell apart. */
  predicate Same(a: File, b: File) {
    !Changed(a, b)
  }

  lemma SameIsEquivalence(a: File, b: File, c: File)
    ensures Same(a, a)
    ensures Same(a, b) <==> Same(b, a)
    ensures Same(a, b) && Same(b, c) ==> Same(a, c)
  {
  }

  /** `changes` is the net difference between `a` and `c`: nothing more, nothing less, nothing twice. */
  ghost predicate Net(changes: Changes, a: Workspace, c: Workspace) {
    forall p ::
      && (p in changes <==> Changed(At(a, p), At(c, p)))
      && (p in changes ==>
            && changes[p].path == p
            && Same(changes[p].before, At(a, p)) && Same(changes[p].after, At(c, p))
            && changes[p].changeType == ChangeType(At(a, p), At(c, p)))
  }

  /** Recording the next step turns the difference from `a` to `b` into the difference from `a` to `c`. */
  lemma RecordingComposes(changes: Changes, changes': Changes, a: Workspace, b: Workspace, c: Workspace)
    requires Net(changes, a, b) && RecordedStep(changes, changes', b, c)
    ensures Net(changes', a, c)
  {
    forall p
      ensures p in changes' <==> Changed(At(a, p), At(c, p))
      ensures p in changes' ==>
                && changes'[p].path == p
                && Same(changes'[p].before, At(a, p)) && Same(changes'[p].after, At(c, p))
                && changes'[p].changeType == ChangeType(At(a, p), At(c, p))
    {
      assert Entry(changes', p) == StepEntry(changes, p, b, c);
      SameIsEquivalence(At(a, p), At(b, p), At(c, p));
      SameIsEquivalence(At(b, p), At(a, p), At(c, p));
      if p in changes {
        SameIsEquivalence(changes[p].before, At(a, p), At(c, p));
        SameIsEquivalence(At(a, p), changes[p].before, At(c, p));
        SameIsEquivalence(changes[p].after, At(b, p), At(c, p));
      }
    }
  }

  /** Recording one file is recording a step in which nothing else changes. */
  lemma FileStep(changes: Changes, path: string, b: Workspace, c: Workspace)
    requires forall p :: p != path ==> At(b, p) == At(c, p)
    ensures var before, after := At(b, path), At(c, path);
            var changes' := if Changed(before, after)
                            then Put(changes, path, Merge(Entry(changes, path), Diff(path, before, after)))
                            else changes;
            RecordedStep(changes, changes', b, c)
  {
  }

  /** The logs a task goes through while its workspace goes through `states`. */
  ghost predicate IsRecording(states: seq<Workspace>, logs: seq<Changes>) {
    && |logs| == |states| >= 1 && logs[0] == map[]
    && forall i :: 0 < i < |states| ==> RecordedStep(logs[i - 1], logs[i], states[i - 1], states[i])
  }

  /** However many steps are recorded, the log is the difference between the first and the current state. */
  lemma {:induction false} FoldedIsNet(states: seq<Workspace>, logs: seq<Changes>, i: nat)
    requires IsRecording(states, logs) && i < |states|
    ensures Net(logs[i], states[0], states[i])
  {
    if i > 0 {
      FoldedIsNet(states, logs, i - 1);
      assert RecordedStep(logs[i - 1], logs[i], states[i - 1], states[i]);
      RecordingComposes(logs[i - 1], logs[i], states[0], states[i - 1], states[i]);
    } else {
      forall p ensures !Changed(At(states[0], p), At(states[0], p)) {
        SameIsEquivalence(At(states[0], p), At(states[0], p), At(states[0], p));
      }
    }
  }

  /** Two logs of the same net difference agree on which paths changed and how, up to `Same`. */
  lemma NetIsUnique(x: Changes, y: Changes, a: Workspace, c: Workspace)
    requires Net(x, a, c) && Net(y, a, c)
    ensures x.Keys == y.Keys
    ensures forall p :: p in x ==>
              Same(x[p].before, y[p].before) && Same(x[p].after, y[p].after) && x[p].changeType == y[p].changeType
  {
  }

  // ---- Applying and reversing ----

  ghost predicate SameWorkspace(a: Workspace, b: Workspace) {
    forall p :: Same(At(a, p), At(b, p))
  }

  /** A workspace with every changed path set to one side of its change. */
  ghost predicate IsApplied(w: Workspace, changes: Changes, w': Workspace, forward: bool) {
    forall p :: At(w', p) == if p !in changes then At(w, p) else if forward then changes[p].after else changes[p].before
  }

  lemma NetApplies(changes: Changes, a: Workspace, c: Workspace, applied: Workspace, reversed: Workspace)
    requires Net(changes, a, c)
    requires IsApplied(a, changes, applied, true) && IsApplied(c, changes, reversed, false)
    ensures SameWorkspace(applied, c) && SameWorkspace(reversed, a)
  {
  }

  /** An entry says whether its path is new, gone, or on both sides. */
  lemma NetTypes(changes: Changes, a: Workspace, c: Workspace, p: string)
    requires Net(changes, a, c) && p in changes
    ensures changes[p].changeType == (if p !in a then "added" else if p !in c then "deleted" else "modified")
    ensures (p in a <==> changes[p].before.Some?) && (p in c <==> changes[p].after.Some?)
  {
  }

  // ---- What is on disk ----

  const MAX_RECORDED_BYTES := 524288

  /** How files are told apart: the fingerprint of a content, and whether it is taken for binary. */
  datatype Reading = Reading(hash: string -> string, binary: string -> bool)

  /** Different contents have different fingerprints. */
  ghost predicate TellsApart(h: Reading) {
    forall x, y :: h.hash(x) == h.hash(y) ==> x == y
  }

  /** `SnapshotFile`: the content itself is kept unless it is binary or too large. */
  ghost predicate IsSnapshot(f: FileSnapshot, body: string, h: Reading) {
    && f.size == |body| && f.hash == h.hash(body) && f.binary == h.binary(body)
    && f.tooLarge == (|body| > MAX_RECORDED_BYTES)
    && f.available == (!f.binary && !f.tooLarge)
    && (f.available ==> f.content == body)
  }

  /** The contents on disk, by path. */
  type Disk = map<string, string>

  function On(d: Disk, p: string): Option<string> {
    if p in d then Some(d[p]) else None
  }

  ghost predicate IsFileOf(f: File, body: Option<string>, h: Reading) {
    (f.Some? <==> body.Some?) && (f.Some? ==> IsSnapshot(f.value, body.value, h))
  }

  ghost predicate IsWorkspaceOf(w: Workspace, d: Disk, h: Reading) {
    forall p :: IsFileOf(At(w, p), On(d, p), h)
  }

  /** A file counts as changed exactly when its content did, or it came or went. */
  lemma ChangedSeesContents(before: File, after: File, x: Option<string>, y: Option<string>, h: Reading)
    requires TellsApart(h) && IsFileOf(before, x, h) && IsFileOf(after, y, h)
    ensures Changed(before, after) <==> x != y
  {
  }

  /** The log has an entry exactly for the files whose contents differ. */
  lemma NetSeesContents(changes: Changes, a: Workspace, c: Workspace, first: Disk, last: Disk, h: Reading, p: string)
    requires TellsApart(h) && Net(changes, a, c) && IsWorkspaceOf(a, first, h) && IsWorkspaceOf(c, last, h)
    ensures p in changes <==> On(first, p) != On(last, p)
  {
    hide Changed;
    assert IsFileOf(At(a, p), On(first, p), h) && IsFileOf(At(c, p), On(last, p), h);
    ChangedSeesContents(At(a, p), At(c, p), On(first, p), On(last, p), h);
  }

  /** A side of an entry was read from some file. */
  ghost predicate IsTaken(f: File, h: Reading) {
    f.Some? ==> exists body :: IsSnapshot(f.value, body, h)
  }

  ghost predicate AreTaken(changes: Changes, h: Reading) {
    forall p :: p in changes ==> IsTaken(changes[p].before, h) && IsTaken(changes[p].after, h)
  }

  lemma RecordingTakes(changes: Changes, changes': Changes, b: Workspace, c: Workspace, first: Disk, last: Disk, h: Reading)
    requires AreTaken(changes, h) && RecordedStep(changes, changes', b, c) && IsWorkspaceOf(b, first, h) && IsWorkspaceOf(c, last, h)
    ensures AreTaken(changes', h)
  {
    hide Changed, IsSnapshot, ChangeType;
    forall p | p in changes' ensures IsTaken(changes'[p].before, h) && IsTaken(changes'[p].after, h) {
      assert Entry(changes', p) == StepEntry(changes, p, b, c);
      assert IsFileOf(At(b, p), On(first, p), h) && IsFileOf(At(c, p), On(last, p), h);
    }
  }

  /** What is told apart by nothing has one content. */
  lemma SameContents(f: File, g: File, body: Option<string>, h: Reading)
    requires TellsApart(h) && IsTaken(f, h) && IsFileOf(g, body, h) && Same(f, g)
    ensures IsFileOf(f, body, h)
  {
  }

  lemma NetAppliesTo(changes: Changes, a: Workspace, c: Workspace, first: Disk, last: Disk, applied: Workspace, reversed: Workspace, h: Reading)
    requires TellsApart(h) && Net(changes, a, c) && AreTaken(changes, h) && IsWorkspaceOf(a, first, h) && IsWorkspaceOf(c, last, h)
    requires IsApplied(a, changes, applied, true) && IsApplied(c, changes, reversed, false)
    ensures IsWorkspaceOf(applied, last, h) && IsWorkspaceOf(reversed, first, h)
  {
    NetApplies(changes, a, c, applied, reversed);
    hide Changed, IsSnapshot, Net, Same;
    forall p ensures IsFileOf(At(applied, p), On(last, p), h) && IsFileOf(At(reversed, p), On(first, p), h) {
      assert Same(At(applied, p), At(c, p)) && Same(At(reversed, p), At(a, p));
      assert IsFileOf(At(a, p), On(first, p), h) && IsFileOf(At(c, p), On(last, p), h);
      FileIsTaken(At(a, p), On(first, p), h);
      FileIsTaken(At(c, p), On(last, p), h);
      SameContents(At(applied, p), At(c, p), On(last, p), h);
      SameContents(At(reversed, p), At(a, p), On(first, p), h);
    }
  }

  lemma FileIsTaken(f: File, body: Option<string>, h: Reading)
    requires IsFileOf(f, body, h)
    ensures IsTaken(f, h)
  {
  }

  /**
   * Whatever a task does to the files, step by step: applying its log to the first state of the workspace gives the
   * contents it ended with, and reversing it in the last state the contents it began with.
   */
  lemma {:induction false} LogRestoresContents(
      states: seq<Workspace>, logs: seq<Changes>, disks: seq<Disk>, i: nat, applied: Workspace, reversed: Workspace, h: Reading)
    requires TellsApart(h) && IsRecording(states, logs) && i < |states| == |disks|
    requires forall k :: 0 <= k < |states| ==> IsWorkspaceOf(states[k], disks[k], h)
    requires IsApplied(states[0], logs[i], applied, true) && IsApplied(states[i], logs[i], reversed, false)
    ensures IsWorkspaceOf(applied, disks[i], h) && IsWorkspaceOf(reversed, disks[0], h)
  {
    FoldedIsNet(states, logs, i);
    LogsAreTaken(states, logs, disks, i, h);
    hide *;
    NetAppliesTo(logs[i], states[0], states[i], disks[0], disks[i], applied, reversed, h);
  }

  lemma {:induction false} LogsAreTaken(states: seq<Workspace>, logs: seq<Changes>, disks: seq<Disk>, i: nat, h: Reading)
    requires IsRecording(states, logs) && i < |states| == |disks|
    requires forall k :: 0 <= k < |states| ==> IsWorkspaceOf(states[k], disks[k], h)
    ensures AreTaken(logs[i], h)
  {
    hide RecordedStep, IsWorkspaceOf;
    if i > 0 {
      LogsAreTaken(states, logs, disks, i - 1, h);
      assert RecordedStep(logs[i - 1], logs[i], states[i - 1], states[i]);
      hide AreTaken;
      RecordingTakes(logs[i - 1], logs[i], states[i - 1], states[i], disks[i - 1], disks[i], h);
    }
  }
}
