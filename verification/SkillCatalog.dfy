/**
 * The cached skill list of `skill.Manager`: scans, invalidations from the file watcher and the start of the
 * watcher, in every interleaving.
 */
module SkillCatalog {
  import opened Text

  type Skills = seq<string>

  datatype Catalog = Catalog(skills: Skills, loaded: bool, dirty: bool, revision: nat, watching: bool)

  /** The end of a reload that captured `revision` before its scan; a failed scan has no skills. */
  function Installed(c: Catalog, revision: nat, scanned: Option<Skills>): Catalog {
    if scanned.None? then c.(dirty := true)
    else c.(skills := scanned.value, loaded := true, dirty := c.revision != revision)
  }

  function Invalidated(c: Catalog): Catalog {
    c.(revision := c.revision + 1, dirty := true)
  }

  /** Changes between the first scan and the watcher are not reported, so they count as one. */
  function Watched(c: Catalog): Catalog {
    if c.watching then c else Invalidated(c).(watching := true)
  }

  predicate NeedsReload(c: Catalog) {
    !c.loaded || c.dirty || !c.watching
  }

  class Manager {
    var skills: Skills
    var loaded: bool
    var dirty: bool
    var revision: nat
    var watching: bool

    ghost function Contents(): Catalog
      reads this
    {
      Catalog(skills, loaded, dirty, revision, watching)
    }

    constructor ()
      ensures Contents() == Catalog([], false, false, 0, false)
    {
      skills, loaded, dirty, revision, watching := [], false, false, 0, false;
    }

    method Invalidate()
      modifies this
      ensures Contents() == Invalidated(old(Contents()))
    {
      revision := revision + 1;
      dirty := true;
    }

    /** `during` is how many invalidations arrive while the directory is scanned. */
    method Reload(during: nat, scanned: Option<Skills>) returns (ok: bool)
      modifies this
      ensures ok <==> scanned.Some?
      ensures revision == old(revision) + during && watching == old(watching)
      ensures ok ==> skills == scanned.value && loaded && (dirty <==> during > 0)
      ensures !ok ==> skills == old(skills) && loaded == old(loaded) && dirty
    {
      var captured := revision;
      for i := 0 to during
        invariant revision == captured + i && watching == old(watching)
        invariant skills == old(skills) && loaded == old(loaded)
      {
        Invalidate();
      }
      ok := Install(captured, scanned);
    }

    method Install(captured: nat, scanned: Option<Skills>) returns (ok: bool)
      modifies this
      ensures ok <==> scanned.Some?
      ensures Contents() == Installed(old(Contents()), captured, scanned)
      ensures if ok then skills == scanned.value && loaded && (dirty <==> revision != captured) else skills == old(skills) && dirty
    {
      if scanned.None? {
        dirty := true;
        return false;
      }
      skills := scanned.value;
      loaded := true;
      dirty := revision != captured;
      ok := true;
    }

    method InstallWatcher() returns (installed: bool)
      modifies this
      ensures installed <==> !old(watching)
      ensures Contents() == Watched(old(Contents()))
      ensures watching && (installed ==> dirty && revision > old(revision))
    {
      if watching {
        return false;
      }
      watching := true;
      dirty := true;
      revision := revision + 1;
      installed := true;
    }

    /** What stands before every prompt: a clean watched catalog is used as it is. */
    method EnsureLoaded(during: nat, scanned: Option<Skills>) returns (ok: bool)
      modifies this
      ensures old(loaded) && !old(dirty) && old(watching) ==> ok && Contents() == old(Contents())
      ensures !old(loaded) || old(dirty) || !old(watching) ==> (ok <==> scanned.Some?) && (ok ==> loaded && skills == scanned.value)
      ensures NeedsReload(old(Contents())) ==> (ok <==> scanned.Some?)
      ensures !NeedsReload(old(Contents())) ==> ok && Contents() == old(Contents())
      ensures ok ==> loaded && (NeedsReload(old(Contents())) ==> skills == scanned.value)
      ensures !ok ==> skills == old(skills) && dirty
    {
      if loaded && !dirty && watching {
        return true;
      }
      ok := Reload(during, scanned);
    }
  }

  // ---- Scans, the disk and the watcher as threads ----

  /** A scan under way: the captured revision, when it began, and whether the disk has changed since. */
  datatype Scan = Scan(revision: nat, began: nat, changed: bool)

  /**
   * `disk` is what a scan finds while nothing changes, `unreported` whether it changed since the last
   * invalidation. As history: the time, when the last invalidation came and when the scan of the list began.
   */
  datatype State = State(catalog: Catalog, scan: Option<Scan>, disk: Skills, unreported: bool, clock: nat, invalidated: nat, began: nat)

  datatype Action =
    | Change(disk: Skills)
    | BeginScan                       // a reload has the reload mutex and captures the revision
    | EndScan(scanned: Option<Skills>)
    | Invalidate
    | StartWatching
    | StopWatching

  predicate Enabled(s: State, a: Action) {
    match a
    case Change(_) => true
    case BeginScan => s.scan == None
    // A scan that overlaps a change may find anything.
    case EndScan(scanned) => s.scan.Some? && (scanned.Some? && !s.scan.value.changed ==> scanned.value == s.disk)
    case Invalidate => true
    case StartWatching => true
    case StopWatching => true
  }

  function Apply(s: State, a: Action): State
    requires Enabled(s, a)
  {
    var s := s.(clock := s.clock + 1);
    match a
    case Change(disk) =>
      s.(disk := disk, unreported := true, scan := if s.scan.Some? then Some(s.scan.value.(changed := true)) else None)
    case BeginScan => s.(scan := Some(Scan(s.catalog.revision, s.clock, false)))
    case EndScan(scanned) =>
      s.(catalog := Installed(s.catalog, s.scan.value.revision, scanned), scan := None,
         began := if scanned.Some? then s.scan.value.began else s.began)
    case Invalidate => s.(catalog := Invalidated(s.catalog), unreported := false, invalidated := s.clock)
    case StartWatching =>
      if s.catalog.watching then s
      else s.(catalog := Watched(s.catalog), unreported := false, invalidated := s.clock)
    case StopWatching => s.(catalog := s.catalog.(watching := false))
  }

  ghost predicate Init(s: State) {
    s.catalog == Catalog([], false, false, 0, false) && s.scan == None && s.clock == s.invalidated == s.began == 0
  }

  ghost predicate Clean(c: Catalog) {
    c.loaded && !c.dirty
  }

  ghost predicate Inv(s: State) {
    && s.invalidated <= s.clock
    && (s.scan.Some? ==>
          && s.scan.value.began <= s.clock && s.scan.value.revision <= s.catalog.revision
          && (s.scan.value.revision == s.catalog.revision ==> s.invalidated < s.scan.value.began)
          && (s.scan.value.revision == s.catalog.revision && s.scan.value.changed ==> s.unreported))
    && (Clean(s.catalog) ==> s.invalidated < s.began && (!s.unreported ==> s.catalog.skills == s.disk))
  }

  lemma ApplyKeeps(s: State, a: Action)
    requires Inv(s) && Enabled(s, a)
    ensures Inv(Apply(s, a))
  {
  }

  ghost predicate Next(s: State, s': State) {
    exists a :: Enabled(s, a) && s' == Apply(s, a)
  }

  ghost predicate IsRun(run: seq<State>) {
    run != [] && Init(run[0]) && forall i :: 0 <= i < |run| - 1 ==> Next(run[i], run[i + 1])
  }

  lemma {:induction false} RunKeeps(run: seq<State>, i: nat)
    requires IsRun(run) && i < |run|
    ensures Inv(run[i])
  {
    if i > 0 {
      hide Inv, Apply;
      RunKeeps(run, i - 1);
      assert Next(run[i - 1], run[i]);
      var a :| Enabled(run[i - 1], a) && run[i] == Apply(run[i - 1], a);
      ApplyKeeps(run[i - 1], a);
    }
  }

  /**
   * A clean list comes from a scan that began after the last invalidation, and it is what is on the disk
   * unless the disk has changed since and nobody has been told.
   */
  lemma CleanIsCurrent(run: seq<State>, i: nat)
    requires IsRun(run) && i < |run| && Clean(run[i].catalog)
    ensures run[i].invalidated < run[i].began
    ensures !run[i].unreported ==> run[i].catalog.skills == run[i].disk
  {
    RunKeeps(run, i);
  }

  /** The list changes only by a scan that succeeds, so a failed one leaves the last valid list. */
  lemma OnlyScansChangeTheList(s: State, a: Action)
    requires Enabled(s, a) && Apply(s, a).catalog.skills != s.catalog.skills
    ensures a.EndScan? && a.scanned.Some? && Apply(s, a).catalog.skills == a.scanned.value
  {
  }

  lemma WatchingStep(s: State, a: Action)
    requires Enabled(s, a)
    ensures a == StopWatching || (a != StartWatching && !s.catalog.watching) ==> !Apply(s, a).catalog.watching
  {
  }

  /** From the end of a watcher until another starts nothing is used without a scan. */
  lemma {:induction false} UnwatchedIsScanned(run: seq<State>, k: nat, i: nat)
    requires IsRun(run) && k < i < |run| && run[k + 1] == Apply(run[k], StopWatching)
    requires forall j :: k < j < i ==> run[j + 1] != Apply(run[j], StartWatching)
    ensures !run[i].catalog.watching && NeedsReload(run[i].catalog)
  {
    hide Apply, Enabled, Init;
    if i == k + 1 {
      StopIsEnabled(run[k]);
      WatchingStep(run[k], StopWatching);
    } else {
      UnwatchedIsScanned(run, k, i - 1);
      assert Next(run[i - 1], run[i]);
      var a :| Enabled(run[i - 1], a) && run[i] == Apply(run[i - 1], a);
      var j := i - 1;
      StopIsEnabled(run[j]);
      assert run[j + 1] != Apply(run[j], StartWatching);
      WatchingStep(run[i - 1], a);
    }
  }

  lemma StopIsEnabled(s: State)
    ensures Enabled(s, StopWatching) && Enabled(s, StartWatching)
  {
  }
}
