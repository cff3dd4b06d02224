/**
 * `sessionOperationCoordinator`: one lock per session, created when first asked for and forgotten when
 * nobody needs it, in every interleaving of its atomic steps.
 */
module SessionLock {
  import opened Text

  const GLOBAL_KEY := "__global__"

  function NormalizeKey(sessionID: string): string {
    var key := TrimSpace(sessionID);
    if key == "" then GLOBAL_KEY else key
  }

  /** Two sessions share a lock exactly when they differ in outer white space or both stand for the global key. */
  lemma KeysShared(a: string, b: string)
    ensures NormalizeKey(a) == NormalizeKey(b) <==>
            TrimSpace(a) == TrimSpace(b) || {TrimSpace(a), TrimSpace(b)} <= {"", GLOBAL_KEY}
  {
  }

  // ---- The table of entries ----

  /** `tokens` are what waits in the gate channel, `refs` counts the calls that use the entry. */
  datatype Entry = Entry(tokens: int, refs: int)

  /** Entries are numbered as they are created; `entries` is the map from keys to the current ones. */
  datatype Table = Table(entries: map<string, nat>, all: seq<Entry>)

  function EntryFor(t: Table, key: string): nat {
    if key in t.entries then t.entries[key] else |t.all|
  }

  function Referred(t: Table, key: string): Table
    requires key in t.entries ==> t.entries[key] < |t.all|
  {
    var e := EntryFor(t, key);
    if key in t.entries then t.(all := t.all[e := t.all[e].(refs := t.all[e].refs + 1)])
    else Table(t.entries[key := e], t.all + [Entry(1, 1)])
  }

  function Gated(t: Table, e: nat, more: int): Table
    requires e < |t.all|
  {
    t.(all := t.all[e := t.all[e].(tokens := t.all[e].tokens + more)])
  }

  function Unreferred(t: Table, key: string, e: nat): Table
    requires e < |t.all|
  {
    var refs := t.all[e].refs - 1;
    Table(if refs == 0 && key in t.entries && t.entries[key] == e then t.entries - {key} else t.entries,
          t.all[e := t.all[e].(refs := refs)])
  }

  class Coordinator {
    var entries: map<string, nat>
    var all: seq<Entry>

    ghost function Contents(): Table
      reads this
    {
      Table(entries, all)
    }

    constructor ()
      ensures Contents() == Table(map[], [])
    {
      entries, all := map[], [];
    }

    /** The part of `lock` under the mutex. A key the calling context holds already is not locked again. */
    method Refer(held: set<string>, sessionID: string) returns (entry: Option<nat>)
      requires forall k :: k in entries ==> entries[k] < |all|
      modifies this
      ensures NormalizeKey(sessionID) in held ==> entry == None && Contents() == old(Contents())
      ensures NormalizeKey(sessionID) !in held ==>
        entry == Some(EntryFor(old(Contents()), NormalizeKey(sessionID))) && Contents() == Referred(old(Contents()), NormalizeKey(sessionID))
    {
      var key := NormalizeKey(sessionID);
      if key in held {
        return None;
      }
      var e;
      if key in entries {
        e := entries[key];
      } else {
        e := |all|;
        all := all + [Entry(1, 0)];
        entries := entries[key := e];
      }
      all := all[e := all[e].(refs := all[e].refs + 1)];
      entry := Some(e);
    }

    /** Receiving from the gate. */
    method Pass(e: nat) returns (passed: bool)
      requires e < |all|
      modifies this`all
      ensures passed <==> old(all[e].tokens) > 0
      ensures Contents() == if passed then Gated(old(Contents()), e, -1) else old(Contents())
    {
      passed := all[e].tokens > 0;
      if passed {
        all := all[e := all[e].(tokens := all[e].tokens - 1)];
      }
    }

    /** Sending to the gate, which has room for one. */
    method GiveBack(e: nat) returns (sent: bool)
      requires e < |all|
      modifies this`all
      ensures sent <==> old(all[e].tokens) < 1
      ensures Contents() == if sent then Gated(old(Contents()), e, 1) else old(Contents())
    {
      sent := all[e].tokens < 1;
      if sent {
        all := all[e := all[e].(tokens := all[e].tokens + 1)];
      }
    }

    method ReleaseReference(key: string, e: nat)
      requires e < |all|
      modifies this
      ensures Contents() == Unreferred(old(Contents()), key, e)
    {
      all := all[e := all[e].(refs := all[e].refs - 1)];
      if all[e].refs == 0 && key in entries && entries[key] == e {
        entries := entries - {key};
      }
    }
  }

  // ---- Calls of lock and unlock as threads ----

  datatype Pc = Waiting | Holding | GaveBack | Cancelled

  /**
   * One call of `lock` that was not a repetition. `held` are the keys marked in its context and `above`,
   * as history, the calls whose contexts that context was derived from.
   */
  datatype Call = Call(key: string, entry: nat, pc: Pc, held: set<string>, above: set<nat>)

  /** `calls` are those not finished; `next` numbers them. */
  datatype State = State(table: Table, calls: map<nat, Call>, next: nat)

  datatype Action =
    | Lock(key: string, within: Option<nat>)  // within another call that holds its lock, or not
    | Pass(id: nat)
    | Cancel(id: nat)                         // the context ends while waiting
    | Unlock(id: nat)
    | ReleaseReference(id: nat)

  function HeldWithin(s: State, within: Option<nat>): set<string>
    requires within.Some? ==> within.value in s.calls
  {
    if within.None? then {} else s.calls[within.value].held + {s.calls[within.value].key}
  }

  function AboveWithin(s: State, within: Option<nat>): set<nat>
    requires within.Some? ==> within.value in s.calls
  {
    if within.None? then {} else s.calls[within.value].above + {within.value}
  }

  predicate Has(s: State, id: nat, pc: Pc) {
    id in s.calls && s.calls[id].pc == pc && s.calls[id].entry < |s.table.all|
  }

  predicate Enabled(s: State, a: Action) {
    match a
    case Lock(key, within) =>
      && (within.Some? ==> Has(s, within.value, Holding))
      && key !in HeldWithin(s, within)
      && (key in s.table.entries ==> s.table.entries[key] < |s.table.all|)
    case Pass(id) => Has(s, id, Waiting) && s.table.all[s.calls[id].entry].tokens > 0
    case Cancel(id) => Has(s, id, Waiting)
    case Unlock(id) => Has(s, id, Holding) && s.table.all[s.calls[id].entry].tokens < 1
    case ReleaseReference(id) => Has(s, id, GaveBack) || Has(s, id, Cancelled)
  }

  function Apply(s: State, a: Action): State
    requires Enabled(s, a)
  {
    match a
    case Lock(key, within) =>
      State(Referred(s.table, key),
            s.calls[s.next := Call(key, EntryFor(s.table, key), Waiting, HeldWithin(s, within), AboveWithin(s, within))], s.next + 1)
    case Pass(id) => s.(table := Gated(s.table, s.calls[id].entry, -1), calls := s.calls[id := s.calls[id].(pc := Holding)])
    case Cancel(id) => s.(calls := s.calls[id := s.calls[id].(pc := Cancelled)])
    case Unlock(id) => s.(table := Gated(s.table, s.calls[id].entry, 1), calls := s.calls[id := s.calls[id].(pc := GaveBack)])
    case ReleaseReference(id) => s.(table := Unreferred(s.table, s.calls[id].key, s.calls[id].entry), calls := s.calls - {id})
  }

  ghost predicate Init(s: State) {
    s == State(Table(map[], []), map[], 0)
  }

  // ---- Invariant ----

  function Users(s: State, e: nat): set<nat> {
    set id | id in s.calls && s.calls[id].entry == e
  }

  function Holders(s: State, e: nat): set<nat> {
    set id | id in s.calls && s.calls[id].entry == e && s.calls[id].pc == Holding
  }

  ghost predicate EntryCounts(s: State, e: nat) {
    e < |s.table.all| ==> s.table.all[e].refs == |Users(s, e)| && 0 <= s.table.all[e].tokens == 1 - |Holders(s, e)|
  }

  /** All unfinished calls for a key use the entry the map has for it. */
  ghost predicate CallFits(s: State, id: nat) {
    id in s.calls ==>
      && id < s.next && s.calls[id].entry < |s.table.all|
      && s.calls[id].key in s.table.entries && s.table.entries[s.calls[id].key] == s.calls[id].entry
      && s.calls[id].key !in s.calls[id].held
      && forall p :: p in s.calls[id].above ==> p < s.next && (p in s.calls ==> s.calls[p].key in s.calls[id].held)
  }

  ghost predicate KeyFits(s: State, key: string) {
    key in s.table.entries ==>
      && s.table.entries[key] < |s.table.all|
      && Users(s, s.table.entries[key]) != {}
      && forall k :: k in s.table.entries && s.table.entries[k] == s.table.entries[key] ==> k == key
  }

  ghost predicate Inv(s: State) {
    && (forall e :: EntryCounts(s, e))
    && (forall id :: CallFits(s, id))
    && (forall key :: KeyFits(s, key))
  }

  lemma LockBounds(s: State, key: string)
    requires Inv(s)
    ensures forall id :: id in s.calls ==> id < s.next && s.calls[id].entry < |s.table.all|
    ensures forall k :: k in s.table.entries ==> s.table.entries[k] < |s.table.all|
    ensures forall k :: k in s.table.entries && key in s.table.entries && s.table.entries[k] == s.table.entries[key] ==> k == key
  {
    forall id | id in s.calls ensures id < s.next && s.calls[id].entry < |s.table.all| {
      assert CallFits(s, id);
    }
    forall k | k in s.table.entries ensures s.table.entries[k] < |s.table.all| {
      assert KeyFits(s, k);
    }
    assert KeyFits(s, key);
  }

  lemma LockSets(s: State, a: Action, e: nat)
    requires Inv(s) && Enabled(s, a) && a.Lock?
    ensures Users(Apply(s, a), e) == if e == EntryFor(s.table, a.key) then Users(s, e) + {s.next} else Users(s, e)
    ensures Holders(Apply(s, a), e) == Holders(s, e)
    ensures s.next !in Users(s, e)
    ensures e >= |s.table.all| ==> Users(s, e) == {} && Holders(s, e) == {}
  {
    LockBounds(s, a.key);
    hide Inv, HeldWithin, AboveWithin;
  }

  lemma LockKeepsCalls(s: State, a: Action, id: nat)
    requires Inv(s) && Enabled(s, a) && a.Lock?
    ensures CallFits(Apply(s, a), id)
  {
    LockBounds(s, a.key);
    assert CallFits(s, id);
    if a.within.Some? {
      assert CallFits(s, a.within.value);
    }
  }

  lemma LockKeepsCounts(s: State, a: Action, e: nat)
    requires Inv(s) && Enabled(s, a) && a.Lock?
    ensures EntryCounts(Apply(s, a), e)
  {
    LockBounds(s, a.key);
    LockSets(s, a, e);
    assert EntryCounts(s, e);
    assert Apply(s, a).table == Referred(s.table, a.key);
    hide Users, Holders, Inv, HeldWithin, AboveWithin, Apply, Enabled;
  }

  lemma LockKeepsKeys(s: State, a: Action, k: string)
    requires Inv(s) && Enabled(s, a) && a.Lock?
    ensures KeyFits(Apply(s, a), k)
  {
    LockBounds(s, a.key);
    LockSets(s, a, EntryFor(Apply(s, a).table, k));
    assert KeyFits(s, k) && KeyFits(s, a.key);
    hide Users, Holders, Inv, HeldWithin, AboveWithin;
  }

  lemma LockKeeps(s: State, a: Action)
    requires Inv(s) && Enabled(s, a) && a.Lock?
    ensures Inv(Apply(s, a))
  {
    hide EntryCounts, CallFits, KeyFits, Apply, Enabled;
    forall e ensures EntryCounts(Apply(s, a), e) {
      LockKeepsCounts(s, a, e);
    }
    forall id ensures CallFits(Apply(s, a), id) {
      LockKeepsCalls(s, a, id);
    }
    forall k ensures KeyFits(Apply(s, a), k) {
      LockKeepsKeys(s, a, k);
    }
  }

  function MovedHolders(s: State, a: Action, id: nat, e: nat): set<nat>
    requires id in s.calls
  {
    if e == s.calls[id].entry && a.Pass? then Holders(s, e) + {id}
    else if e == s.calls[id].entry && a.Unlock? then Holders(s, e) - {id} else Holders(s, e)
  }

  lemma MoveSets(s: State, a: Action, id: nat, e: nat)
    requires Enabled(s, a) && (a == Action.Pass(id) || a == Cancel(id) || a == Unlock(id))
    ensures Users(Apply(s, a), e) == Users(s, e)
    ensures Holders(Apply(s, a), e) == MovedHolders(s, a, id, e)
  {
  }

  /** Passing, cancelling and unlocking move tokens but not references. */
  lemma MoveKeeps(s: State, a: Action, id: nat)
    requires Inv(s) && Enabled(s, a) && (a == Action.Pass(id) || a == Cancel(id) || a == Unlock(id))
    ensures Inv(Apply(s, a))
  {
    var s', e' := Apply(s, a), s.calls[id].entry;
    forall e: nat
      ensures Users(s', e) == Users(s, e)
      ensures Holders(s', e) == MovedHolders(s, a, id, e)
    {
      MoveSets(s, a, id, e);
    }
    assert id in Holders(s, e') <==> a.Unlock?;
    hide Users, Holders;
    forall e ensures EntryCounts(s', e) {
      assert EntryCounts(s, e);
    }
    forall k ensures CallFits(s', k) {
      assert CallFits(s, k);
    }
    forall k ensures KeyFits(s', k) {
      assert KeyFits(s, k);
    }
  }

  lemma ReleaseKeeps(s: State, id: nat)
    requires Inv(s) && Enabled(s, Action.ReleaseReference(id))
    ensures Inv(Apply(s, Action.ReleaseReference(id)))
  {
    var s', e' := Apply(s, Action.ReleaseReference(id)), s.calls[id].entry;
    assert CallFits(s, id) && EntryCounts(s, e') && KeyFits(s, s.calls[id].key);
    forall e: nat
      ensures Users(s', e) == if e == e' then Users(s, e) - {id} else Users(s, e)
      ensures Holders(s', e) == Holders(s, e)
    {
    }
    assert id in Users(s, e');
    forall k | k in s'.calls && s'.calls[k].entry == e' ensures k in Users(s', e') {
    }
    hide Users, Holders;
    forall e ensures EntryCounts(s', e) {
      assert EntryCounts(s, e);
    }
    forall k ensures CallFits(s', k) {
      assert CallFits(s, k);
      assert k in s'.calls ==> s.calls[k].key == s.calls[id].key ==> s.calls[k].entry == e';
    }
    forall k ensures KeyFits(s', k) {
      assert KeyFits(s, k);
    }
  }

  lemma ApplyKeeps(s: State, a: Action)
    requires Inv(s) && Enabled(s, a)
    ensures Inv(Apply(s, a))
  {
    hide Inv, Apply, Enabled;
    match a {
      case Lock(_, _) => LockKeeps(s, a);
      case Pass(id) => MoveKeeps(s, a, id);
      case Cancel(id) => MoveKeeps(s, a, id);
      case Unlock(id) => MoveKeeps(s, a, id);
      case ReleaseReference(id) => ReleaseKeeps(s, id);
    }
  }

  // ---- Runs ----

  ghost predicate Next(s: State, s': State) {
    exists a :: Enabled(s, a) && s' == Apply(s, a)
  }

  ghost predicate IsRun(run: seq<State>) {
    run != [] && Init(run[0]) && forall i :: 0 <= i < |run| - 1 ==> Next(run[i], run[i + 1])
  }

  lemma InitIsInv(s: State)
    requires Init(s)
    ensures Inv(s)
  {
  }

  lemma {:induction false} RunKeeps(run: seq<State>, i: nat)
    requires IsRun(run) && i < |run|
    ensures Inv(run[i])
  {
    hide Inv, Apply, Enabled;
    if i == 0 {
      InitIsInv(run[0]);
    } else {
      RunKeeps(run, i - 1);
      assert Next(run[i - 1], run[i]);
      var a :| Enabled(run[i - 1], a) && run[i] == Apply(run[i - 1], a);
      ApplyKeeps(run[i - 1], a);
    }
  }

  lemma AtMostOne(h: set<nat>, a: nat, b: nat)
    requires a in h && b in h && |h| <= 1
    ensures a == b
  {
    assert |h - {a}| == |h| - 1;
    assert h - {a} == {};
  }

  /** At most one call holds the lock of a session, although entries come and go. */
  lemma MutualExclusion(run: seq<State>, i: nat, x: nat, y: nat)
    requires IsRun(run) && i < |run|
    requires Has(run[i], x, Holding) && Has(run[i], y, Holding) && run[i].calls[x].key == run[i].calls[y].key
    ensures x == y
  {
    RunKeeps(run, i);
    var s := run[i];
    var e := s.calls[x].entry;
    assert CallFits(s, x) && CallFits(s, y) && EntryCounts(s, e);
    assert x in Holders(s, e) && y in Holders(s, e);
    AtMostOne(Holders(s, e), x, y);
  }

  /** So calls for session ids that differ only in outer white space exclude each other. */
  lemma SessionsExclude(run: seq<State>, i: nat, x: nat, y: nat, a: string, b: string)
    requires IsRun(run) && i < |run| && Has(run[i], x, Holding) && Has(run[i], y, Holding)
    requires run[i].calls[x].key == NormalizeKey(a) && run[i].calls[y].key == NormalizeKey(b)
    ensures TrimSpace(a) == TrimSpace(b) || {TrimSpace(a), TrimSpace(b)} <= {"", GLOBAL_KEY} ==> x == y
  {
    hide TrimSpace, NormalizeKey, IsRun;
    KeysShared(a, b);
    if NormalizeKey(a) == NormalizeKey(b) {
      MutualExclusion(run, i, x, y);
    }
  }

  /** Unlocking never waits for room in the gate. */
  lemma UnlockNeverBlocks(run: seq<State>, i: nat, x: nat)
    requires IsRun(run) && i < |run| && Has(run[i], x, Holding)
    ensures Enabled(run[i], Unlock(x))
  {
    RunKeeps(run, i);
    var e := run[i].calls[x].entry;
    assert EntryCounts(run[i], e);
    assert x in Holders(run[i], e);
    assert |Holders(run[i], e)| > 0;
  }

  /** There is an entry for a key exactly while some call for it is unfinished, and it counts those calls. */
  lemma TableIsExact(run: seq<State>, i: nat, key: string)
    requires IsRun(run) && i < |run|
    ensures key in run[i].table.entries <==> exists id :: id in run[i].calls && run[i].calls[id].key == key
    ensures key in run[i].table.entries ==>
              var e := run[i].table.entries[key];
              e < |run[i].table.all| && run[i].table.all[e].refs == |set id | id in run[i].calls && run[i].calls[id].key == key|
  {
    RunKeeps(run, i);
    var s := run[i];
    hide IsRun;
    forall id ensures id in s.calls ==> s.calls[id].key in s.table.entries && s.table.entries[s.calls[id].key] == s.calls[id].entry {
      assert CallFits(s, id);
    }
    if key in s.table.entries {
      assert KeyFits(s, key);
      var e := s.table.entries[key];
      assert EntryCounts(s, e);
      forall id ensures id in Users(s, e) <==> id in s.calls && s.calls[id].key == key {
        assert id in s.calls ==> KeyFits(s, s.calls[id].key);
      }
      assert Users(s, e) == set id | id in s.calls && s.calls[id].key == key;
      var id :| id in Users(s, e);
    }
  }

  /** No token is lost: whoever waits can pass or another call for the same session is inside. */
  lemma WaitingIsForSomebody(run: seq<State>, i: nat, x: nat)
    requires IsRun(run) && i < |run| && Has(run[i], x, Waiting)
    ensures Enabled(run[i], Action.Pass(x)) <==> forall y :: Has(run[i], y, Holding) ==> run[i].calls[y].key != run[i].calls[x].key
  {
    RunKeeps(run, i);
    var s := run[i];
    var e := s.calls[x].entry;
    assert CallFits(s, x) && EntryCounts(s, e);
    hide IsRun;
    forall y | Has(s, y, Holding) ensures s.calls[y].key == s.calls[x].key <==> y in Holders(s, e) {
      assert CallFits(s, y) && KeyFits(s, s.calls[x].key) && KeyFits(s, s.calls[y].key);
    }
    if Holders(s, e) != {} {
      var y :| y in Holders(s, e);
      assert Has(s, y, Holding);
      assert |Holders(s, e)| > 0;
    }
  }

  /** A call made inside others waits for none of their locks, which would be for ever. */
  lemma NeverWaitsForItself(run: seq<State>, i: nat, x: nat, p: nat)
    requires IsRun(run) && i < |run| && Has(run[i], x, Waiting)
    requires p in run[i].calls[x].above && p in run[i].calls
    ensures run[i].calls[p].key != run[i].calls[x].key
  {
    RunKeeps(run, i);
    assert CallFits(run[i], x);
  }

  /** Nobody is stuck: a holder can unlock, a waiting call can be canceled, and after either the reference can be released. */
  lemma CallsCanEnd(run: seq<State>, i: nat, id: nat)
    requires IsRun(run) && i < |run| && id in run[i].calls
    ensures match run[i].calls[id].pc
            case Waiting => Enabled(run[i], Cancel(id))
            case Holding => Enabled(run[i], Unlock(id))
            case _ => Enabled(run[i], ReleaseReference(id))
  {
    RunKeeps(run, i);
    assert CallFits(run[i], id) && EntryCounts(run[i], run[i].calls[id].entry);
    if run[i].calls[id].pc == Holding {
      UnlockNeverBlocks(run, i, id);
    }
    hide IsRun, Inv;
  }
}
