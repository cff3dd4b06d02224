/**
 * `RegisterTools.leases`: snapshots hold up the cleanup of what was retired while they were out.
 * A release takes its callbacks under the lock and runs them one by one after giving it back.
 */
module TurnLeases {

  /**
   * `held[id]` are the retirements to report to when snapshot `id` is released; `remaining[r]` is the
   * counter shared by the callbacks of retirement `r`. Snapshots and retirements are numbered as they appear.
   */
  datatype Leases = Leases(held: map<nat, seq<nat>>, remaining: seq<int>, snapshots: nat)

  function NoLeases(): Leases {
    Leases(map[], [], 0)
  }

  function Taken(l: Leases): Leases {
    l.(held := l.held[l.snapshots := []], snapshots := l.snapshots + 1)
  }

  function Grabbed(l: Leases, id: nat): Leases {
    l.(held := l.held - {id})
  }

  function Callbacks(l: Leases, id: nat): seq<nat> {
    if id in l.held then l.held[id] else []
  }

  function Retired(l: Leases): Leases {
    l.(held := map id | id in l.held :: l.held[id] + [|l.remaining|], remaining := l.remaining + [|l.held|])
  }

  function Reported(l: Leases, r: nat): Leases
    requires r < |l.remaining|
  {
    l.(remaining := l.remaining[r := l.remaining[r] - 1])
  }

  // ---- The same with what the rest of the program holds, and with history ----

  /**
   * `releasing[id]` are callbacks a release has taken and not run yet. As history: `waiting[r]`, the
   * snapshots that were out when `r` was published, and `cleaned[r]`, how often its cleanup ran.
   */
  datatype Turns = Turns(leases: Leases, releasing: map<nat, seq<nat>>, waiting: seq<set<nat>>, cleaned: seq<nat>)

  function Take(t: Turns): Turns {
    t.(leases := Taken(t.leases))
  }

  function Grab(t: Turns, id: nat): Turns {
    t.(leases := Grabbed(t.leases, id), releasing := t.releasing[id := Callbacks(t.leases, id)])
  }

  predicate CanReport(t: Turns, id: nat) {
    id in t.releasing && t.releasing[id] != [] && t.releasing[id][0] < |t.leases.remaining| == |t.cleaned|
  }

  /** Runs one callback; the last one runs the cleanup. */
  function Report(t: Turns, id: nat): Turns
    requires CanReport(t, id)
  {
    var r := t.releasing[id][0];
    Turns(Reported(t.leases, r), t.releasing[id := t.releasing[id][1..]], t.waiting,
          if t.leases.remaining[r] - 1 == 0 then t.cleaned[r := t.cleaned[r] + 1] else t.cleaned)
  }

  /** With no snapshot out the cleanup runs at once. */
  function Retire(t: Turns): Turns {
    Turns(Retired(t.leases), t.releasing, t.waiting + [t.leases.held.Keys], t.cleaned + [if |t.leases.held| == 0 then 1 else 0])
  }

  // ---- Invariant ----

  /** The retirements a snapshot still has to report to, whether it is out or being released. */
  function Owes(t: Turns, id: nat): seq<nat> {
    if id in t.leases.held then t.leases.held[id] else if id in t.releasing then t.releasing[id] else []
  }

  ghost predicate Distinct(s: seq<nat>) {
    forall i, j :: 0 <= i < j < |s| ==> s[i] != s[j]
  }

  function Outstanding(t: Turns, r: nat): set<nat> {
    set id | id in t.leases.held.Keys + t.releasing.Keys && r in Owes(t, id)
  }

  ghost predicate Shape(t: Turns) {
    && |t.leases.remaining| == |t.waiting| == |t.cleaned|
    && t.leases.held.Keys !! t.releasing.Keys
    && (forall id :: id in t.leases.held || id in t.releasing ==> id < t.leases.snapshots)
    && (forall r :: 0 <= r < |t.waiting| ==> forall id :: id in t.waiting[r] ==> id < t.leases.snapshots)
  }

  ghost predicate Owing(t: Turns) {
    forall id ::
      && Distinct(Owes(t, id))
      && forall r :: r in Owes(t, id) ==> r < |t.waiting| && id in t.waiting[r]
  }

  /** The counters count, and a cleanup has run once exactly when its counter is down. */
  ghost predicate Counted(t: Turns) {
    forall r :: 0 <= r < |t.waiting| && r < |t.leases.remaining| && r < |t.cleaned| ==>
      && t.leases.remaining[r] == |Outstanding(t, r)|
      && t.cleaned[r] == if Outstanding(t, r) == {} then 1 else 0
  }

  /** A snapshot that was out when `r` was published still owes it while it is out. */
  ghost predicate Waited(t: Turns) {
    forall r, id :: 0 <= r < |t.waiting| && id in t.waiting[r] && id in t.leases.held ==> r in t.leases.held[id]
  }

  ghost predicate Inv(t: Turns) {
    Shape(t) && Owing(t) && Counted(t) && Waited(t)
  }

  lemma TakeKeeps(t: Turns)
    requires Inv(t)
    ensures Inv(Take(t))
  {
    var t' := Take(t);
    assert Owes(t, t.leases.snapshots) == [];
    forall id ensures Owes(t', id) == Owes(t, id) {
    }
    forall r: nat ensures Outstanding(t', r) == Outstanding(t, r) {
    }
  }

  lemma GrabKeeps(t: Turns, id: nat)
    requires Inv(t) && id in t.leases.held
    ensures Inv(Grab(t, id))
  {
    var t' := Grab(t, id);
    forall k ensures Owes(t', k) == Owes(t, k) {
    }
    forall r: nat ensures Outstanding(t', r) == Outstanding(t, r) {
    }
  }

  lemma ReportOwes(t: Turns, id: nat)
    requires Inv(t) && id in t.releasing && t.releasing[id] != []
    ensures CanReport(t, id)
    ensures var r, t' := t.releasing[id][0], Report(t, id);
            && (forall k :: Owes(t', k) == if k == id then t.releasing[id][1..] else Owes(t, k))
            && (forall q: nat :: Outstanding(t', q) == if q == r then Outstanding(t, r) - {id} else Outstanding(t, q))
            && id in Outstanding(t, r)
  {
    var r := t.releasing[id][0];
    assert Owes(t, id) == t.releasing[id] && r in Owes(t, id);
    var t' := Report(t, id);
    forall q: nat ensures q in t.releasing[id][1..] <==> q in t.releasing[id] && q != r {
      var rest := t.releasing[id][1..];
      if q in rest {
        var i :| 0 <= i < |rest| && rest[i] == q;
        assert t.releasing[id][i + 1] == q;
      }
    }
    forall q: nat ensures Outstanding(t', q) == if q == r then Outstanding(t, r) - {id} else Outstanding(t, q) {
    }
  }

  lemma ReportKeeps(t: Turns, id: nat)
    requires Inv(t) && id in t.releasing && t.releasing[id] != []
    ensures CanReport(t, id) && Inv(Report(t, id))
  {
    ReportShape(t, id);
    ReportCounts(t, id);
    ReportOwing(t, id);
    hide Shape, Counted, Owing, Waited;
  }

  lemma ReportShape(t: Turns, id: nat)
    requires Inv(t) && id in t.releasing && t.releasing[id] != []
    ensures CanReport(t, id) && Shape(Report(t, id)) && Waited(Report(t, id))
  {
    ReportOwes(t, id);
    hide Outstanding, Counted, Owing, Owes;
  }

  lemma ReportOwing(t: Turns, id: nat)
    requires Inv(t) && id in t.releasing && t.releasing[id] != []
    ensures CanReport(t, id) && Owing(Report(t, id))
  {
    ReportOwes(t, id);
    var rest := t.releasing[id][1..];
    assert Owes(t, id) == t.releasing[id];
    assert forall i :: 0 <= i < |rest| ==> rest[i] == t.releasing[id][i + 1];
    hide Outstanding, Counted, Waited, Owes;
  }

  lemma ReportCounts(t: Turns, id: nat)
    requires Inv(t) && id in t.releasing && t.releasing[id] != []
    ensures CanReport(t, id) && Counted(Report(t, id))
  {
    ReportOwes(t, id);
    hide Owes, Outstanding, Owing, Waited;
  }

  lemma RetireOwesOne(t: Turns, id: nat)
    requires Shape(t)
    ensures Owes(Retire(t), id) == if id in t.leases.held then Owes(t, id) + [|t.waiting|] else Owes(t, id)
  {
  }

  lemma NotOwedYet(t: Turns, id: nat)
    requires Owing(t)
    ensures |t.waiting| !in Owes(t, id)
  {
  }

  lemma RetireOutstanding(t: Turns, q: nat)
    requires Inv(t)
    ensures Outstanding(Retire(t), q) == if q == |t.waiting| then t.leases.held.Keys else Outstanding(t, q)
  {
    var t' := Retire(t);
    assert t'.leases.held.Keys == t.leases.held.Keys && t'.releasing == t.releasing;
    hide Owes, Owing, Shape, Counted, Waited, Retire;
    forall id ensures id in Outstanding(t', q) <==> id in if q == |t.waiting| then t.leases.held.Keys else Outstanding(t, q) {
      RetireOwesOne(t, id);
      NotOwedYet(t, id);
    }
  }

  lemma RetireCounts(t: Turns)
    requires Inv(t)
    ensures Counted(Retire(t))
  {
    hide Owes, Outstanding, Owing, Waited;
    assert |t.leases.held| == |t.leases.held.Keys|;
    forall q: nat ensures Outstanding(Retire(t), q) == if q == |t.waiting| then t.leases.held.Keys else Outstanding(t, q) {
      RetireOutstanding(t, q);
    }
  }

  lemma RetireOwing(t: Turns)
    requires Inv(t)
    ensures Owing(Retire(t))
  {
    var r, t' := |t.waiting|, Retire(t);
    assert t'.waiting[r] == t.leases.held.Keys && t'.waiting[..r] == t.waiting;
    hide Outstanding, Counted, Waited, Owes, Retire, Shape;
    forall id
      ensures Distinct(Owes(t', id))
      ensures forall q :: q in Owes(t', id) ==> q < |t'.waiting| && id in t'.waiting[q]
    {
      RetireOwesOne(t, id);
      NotOwedYet(t, id);
    }
  }

  lemma RetireKeeps(t: Turns)
    requires Inv(t)
    ensures Inv(Retire(t))
  {
    RetireCounts(t);
    RetireOwing(t);
    hide Counted, Owing;
  }

  lemma StillOut(t: Turns, r: nat, id: nat)
    requires Inv(t) && r < |t.waiting| && id in t.waiting[r] && id in t.leases.held
    ensures id in Outstanding(t, r)
  {
  }

  /** What the counters mean for one retirement. */
  lemma CleanupIsExact(t: Turns, r: nat)
    requires Inv(t) && r < |t.waiting|
    ensures t.cleaned[r] <= 1
    ensures t.cleaned[r] == 1 ==> forall id :: id in t.waiting[r] ==> id !in t.leases.held
    ensures t.cleaned[r] == 1 <== forall id :: id in t.waiting[r] ==> id !in t.leases.held && (id in t.releasing ==> r !in t.releasing[id])
  {
    if t.cleaned[r] == 1 {
      forall id | id in t.waiting[r] ensures id !in t.leases.held {
        if id in t.leases.held {
          StillOut(t, r, id);
        }
      }
    }
    if t.cleaned[r] == 0 {
      var id :| id in Outstanding(t, r);
      assert r in Owes(t, id);
    }
  }
}
