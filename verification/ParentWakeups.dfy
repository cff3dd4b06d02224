/**
 * Waking idle parent sessions: `schedulePendingTurn` starts one worker per session, and wakes that come
 * while it is at work are merged into one more attempt.
 */
module ParentWakeups {
  import opened Text

  /** `pendingWakes`: the sessions with a worker, and whether another attempt is requested. */
  type Wakes = map<string, bool>

  function Scheduled(wakes: Wakes, session: string): Wakes {
    if session in wakes then wakes[session := true] else wakes[session := false]
  }

  predicate Again(wakes: Wakes, session: string) {
    session in wakes && wakes[session]
  }

  function Checked(wakes: Wakes, session: string): Wakes {
    if Again(wakes, session) then wakes[session := false] else wakes - {session}
  }

  class WakeTable {
    var wakes: Wakes

    constructor ()
      ensures wakes == map[]
    {
      wakes := map[];
    }

    method Schedule(sessionID: string) returns (spawn: Option<string>)
      modifies this
      ensures var session := TrimSpace(sessionID);
              && wakes == (if session == "" then old(wakes) else Scheduled(old(wakes), session))
              && spawn == if session == "" || session in old(wakes) then None else Some(session)
    {
      var session := TrimSpace(sessionID);
      if session == "" {
        return None;
      }
      if session in wakes {
        wakes := wakes[session := true];
        return None;
      }
      wakes := wakes[session := false];
      spawn := Some(session);
    }

    /** What a worker does between two attempts. */
    method Check(session: string) returns (again: bool)
      modifies this
      ensures again <==> Again(old(wakes), session)
      ensures wakes == Checked(old(wakes), session)
    {
      if session !in wakes || !wakes[session] {
        wakes := wakes - {session};
        return false;
      }
      wakes := wakes[session := false];
      again := true;
    }
  }

  // ---- Workers as threads ----

  datatype Pc = Starting | Attempting | Checking

  datatype Worker = Worker(session: string, pc: Pc)

  datatype State = State(wakes: Wakes, workers: map<nat, Worker>, next: nat)

  datatype Action =
    | Schedule(session: string)
    | StartAttempt(worker: nat)   // from here on the attempt will drain the queue
    | EndAttempt(worker: nat)     // whatever came of it
    | Check(worker: nat)

  predicate At(s: State, w: nat, pc: Pc) {
    w in s.workers && s.workers[w].pc == pc
  }

  predicate Enabled(s: State, a: Action) {
    match a
    case Schedule(session) => session != ""
    case StartAttempt(w) => At(s, w, Starting)
    case EndAttempt(w) => At(s, w, Attempting)
    case Check(w) => At(s, w, Checking)
  }

  function Moved(s: State, w: nat, pc: Pc): map<nat, Worker>
    requires w in s.workers
  {
    s.workers[w := s.workers[w].(pc := pc)]
  }

  function Apply(s: State, a: Action): State
    requires Enabled(s, a)
  {
    match a
    case Schedule(session) =>
      if session in s.wakes then s.(wakes := Scheduled(s.wakes, session))
      else State(Scheduled(s.wakes, session), s.workers[s.next := Worker(session, Starting)], s.next + 1)
    case StartAttempt(w) => s.(workers := Moved(s, w, Attempting))
    case EndAttempt(w) => s.(workers := Moved(s, w, Checking))
    case Check(w) =>
      var session := s.workers[w].session;
      s.(wakes := Checked(s.wakes, session),
         workers := if Again(s.wakes, session) then Moved(s, w, Starting) else s.workers - {w})
  }

  /** One worker for each session in the table. */
  ghost predicate Inv(s: State) {
    OneEach(s) && forall session :: session in s.wakes ==> HasWorker(s, session)
  }

  ghost predicate HasWorker(s: State, session: string) {
    exists w :: w in s.workers && s.workers[w].session == session
  }

  /** The session's worker starts an attempt with its `n`-th step from here at the latest. */
  ghost predicate StartsWithin(s: State, session: string, n: int) {
    exists w :: w in s.workers && s.workers[w].session == session && StepsToStart(s, w) <= n
  }

  /** How many steps of a worker it takes to start an attempt; more than three when no attempt is called for. */
  function StepsToStart(s: State, w: nat): nat
    requires w in s.workers
  {
    match s.workers[w].pc
    case Starting => 1
    case Checking => if Again(s.wakes, s.workers[w].session) then 2 else 4
    case Attempting => if Again(s.wakes, s.workers[w].session) then 3 else 4
  }

  ghost predicate OneEach(s: State) {
    && (forall w :: w in s.workers ==> w < s.next && s.workers[w].session in s.wakes)
    && (forall v, w :: v in s.workers && w in s.workers && s.workers[v].session == s.workers[w].session ==> v == w)
  }

  lemma ApplyKeepsOneEach(s: State, a: Action)
    requires OneEach(s) && Enabled(s, a)
    ensures OneEach(Apply(s, a))
  {
  }

  lemma ApplyKeepsWorkers(s: State, a: Action, session: string)
    requires Inv(s) && Enabled(s, a) && session in Apply(s, a).wakes
    ensures HasWorker(Apply(s, a), session)
  {
    var s' := Apply(s, a);
    if session in s.wakes {
      assert HasWorker(s, session);
      var w :| w in s.workers && s.workers[w].session == session;
      assert w in s'.workers && s'.workers[w].session == session;
    } else {
      assert s.next in s'.workers && s'.workers[s.next].session == session;
    }
  }

  lemma ApplyKeeps(s: State, a: Action)
    requires Inv(s) && Enabled(s, a)
    ensures Inv(Apply(s, a))
  {
    ApplyKeepsOneEach(s, a);
    forall session | session in Apply(s, a).wakes ensures HasWorker(Apply(s, a), session) {
      ApplyKeepsWorkers(s, a, session);
    }
    hide Apply, HasWorker;
  }

  predicate StepsFor(s: State, a: Action, session: string) {
    !a.Schedule? && a.worker in s.workers && s.workers[a.worker].session == session
  }

  predicate Starts(s: State, a: Action, session: string) {
    a.StartAttempt? && StepsFor(s, a, session)
  }

  /** Only the start of an attempt serves a wake, and every other step of the worker brings it nearer. */
  lemma StartComesNearer(s: State, a: Action, session: string, n: nat)
    requires OneEach(s) && Enabled(s, a) && StartsWithin(s, session, n) && n <= 3 && !Starts(s, a, session)
    ensures StartsWithin(Apply(s, a), session, if StepsFor(s, a, session) then n - 1 else n)
  {
    var s' := Apply(s, a);
    var w :| w in s.workers && s.workers[w].session == session && StepsToStart(s, w) <= n;
    assert w in s'.workers && s'.workers[w].session == session;
  }

  lemma ScheduleCallsForStart(s: State, session: string)
    requires Inv(s) && session != ""
    ensures StartsWithin(Apply(s, Action.Schedule(session)), session, 3)
  {
    var s' := Apply(s, Action.Schedule(session));
    if session in s.wakes {
      assert HasWorker(s, session);
      var w :| w in s.workers && s.workers[w].session == session;
      assert w in s'.workers && Again(s'.wakes, session);
    } else {
      assert s.next in s'.workers;
    }
  }

  // ---- Runs ----

  /** The states of a run and the actions between them. */
  ghost predicate IsRun(states: seq<State>, actions: seq<Action>) {
    && |states| == |actions| + 1 && states[0] == State(map[], map[], 0)
    && forall i :: 0 <= i < |actions| ==> Enabled(states[i], actions[i]) && states[i + 1] == Apply(states[i], actions[i])
  }

  lemma {:induction false} RunKeeps(states: seq<State>, actions: seq<Action>, i: nat)
    requires IsRun(states, actions) && i < |states|
    ensures Inv(states[i])
  {
    if i > 0 {
      RunKeeps(states, actions, i - 1);
      ApplyKeeps(states[i - 1], actions[i - 1]);
    }
  }

  ghost predicate StartedBetween(states: seq<State>, actions: seq<Action>, session: string, from: nat, end: nat)
    requires end <= |actions| && |states| > |actions|
  {
    exists k :: from <= k < end && Starts(states[k], actions[k], session)
  }

  /** The steps of the session's worker between two moments. */
  function WorkerSteps(states: seq<State>, actions: seq<Action>, session: string, from: nat, end: nat): nat
    requires end <= |actions| && |states| > |actions|
    decreases end
  {
    if end <= from then 0
    else WorkerSteps(states, actions, session, from, end - 1) + if StepsFor(states[end - 1], actions[end - 1], session) then 1 else 0
  }

  lemma {:induction false} ServedOrNear(states: seq<State>, actions: seq<Action>, i: nat, j: nat)
    requires IsRun(states, actions) && i < j <= |actions| && actions[i].Schedule?
    ensures var session := actions[i].session;
            || StartedBetween(states, actions, session, i + 1, j)
            || StartsWithin(states[j], session, 3 - WorkerSteps(states, actions, session, i + 1, j))
    decreases j
  {
    hide Apply, Inv, StartsWithin, OneEach, StepsFor;
    var session := actions[i].session;
    RunKeeps(states, actions, j - 1);
    if j == i + 1 {
      assert actions[i] == Action.Schedule(session);
      ScheduleCallsForStart(states[i], session);
    } else {
      ServedOrNear(states, actions, i, j - 1);
      if StartedBetween(states, actions, session, i + 1, j - 1) {
        var k :| i + 1 <= k < j - 1 && Starts(states[k], actions[k], session);
        assert Starts(states[k], actions[k], session);
      } else if !Starts(states[j - 1], actions[j - 1], session) {
        var left := 3 - WorkerSteps(states, actions, session, i + 1, j - 1);
        NearIsPositive(states[j - 1], session, left);
        InvIsOneEach(states[j - 1]);
        StartComesNearer(states[j - 1], actions[j - 1], session, left);
      }
    }
  }

  lemma InvIsOneEach(s: State)
    requires Inv(s)
    ensures OneEach(s)
  {
  }

  lemma NearIsPositive(s: State, session: string, n: int)
    requires StartsWithin(s, session, n)
    ensures n >= 1
  {
  }

  /**
   * No wake is lost: an attempt starts within three steps of the session's worker after the wake, and until
   * it does the session has a worker, which can always take its next step.
   */
  lemma WakesAreServed(states: seq<State>, actions: seq<Action>, i: nat, j: nat)
    requires IsRun(states, actions) && i < j <= |actions| && actions[i].Schedule?
    ensures var session := actions[i].session;
            || StartedBetween(states, actions, session, i + 1, j)
            || (WorkerSteps(states, actions, session, i + 1, j) < 3 && WorkerCanStep(states[j], session))
  {
    ServedOrNear(states, actions, i, j);
    var s, session := states[j], actions[i].session;
    var left := 3 - WorkerSteps(states, actions, session, i + 1, j);
    if StartsWithin(s, session, left) {
      NearIsPositive(s, session, left);
      var w :| w in s.workers && s.workers[w].session == session && StepsToStart(s, w) <= left;
      assert Enabled(s, StartAttempt(w)) || Enabled(s, EndAttempt(w)) || Enabled(s, Action.Check(w));
    }
  }

  ghost predicate WorkerCanStep(s: State, session: string) {
    exists w :: w in s.workers && s.workers[w].session == session
             && (Enabled(s, StartAttempt(w)) || Enabled(s, EndAttempt(w)) || Enabled(s, Action.Check(w)))
  }

  /** At most one worker is at work on a session. */
  lemma OneWorker(states: seq<State>, actions: seq<Action>, i: nat, v: nat, w: nat)
    requires IsRun(states, actions) && i < |states|
    requires v in states[i].workers && w in states[i].workers && states[i].workers[v].session == states[i].workers[w].session
    ensures v == w
  {
    RunKeeps(states, actions, i);
  }

  // ---- Merging ----

  function Requests(actions: seq<Action>, session: string): nat {
    if actions == [] then 0
    else Requests(actions[..|actions| - 1], session) + if actions[|actions| - 1] == Action.Schedule(session) then 1 else 0
  }

  function Attempts(states: seq<State>, actions: seq<Action>, session: string): nat
    requires |states| > |actions|
  {
    if actions == [] then 0
    else
      var n := |actions| - 1;
      Attempts(states, actions[..n], session) + if Starts(states[n], actions[n], session) then 1 else 0
  }

  ghost predicate StandsBefore(s: State, session: string) {
    exists w :: At(s, w, Starting) && s.workers[w].session == session
  }

  ghost function Credit(s: State, session: string): nat {
    (if StandsBefore(s, session) then 1 else 0) + (if Again(s.wakes, session) then 1 else 0)
  }

  lemma CreditStep(s: State, a: Action, session: string)
    requires Inv(s) && Enabled(s, a)
    ensures Credit(Apply(s, a), session) + (if Starts(s, a, session) then 1 else 0) <=
            Credit(s, session) + (if a == Action.Schedule(session) then 1 else 0)
  {
    var s' := Apply(s, a);
    if StandsBefore(s', session) {
      var w :| At(s', w, Starting) && s'.workers[w].session == session;
      assert At(s, w, Starting) || a == Action.Schedule(session) || a == Action.Check(w);
    }
    if a.StartAttempt? && Starts(s, a, session) {
      assert At(s, a.worker, Starting);
    }
  }

  /** Merging never makes more attempts than there were wakes. */
  lemma {:induction false} NoSpuriousAttempts(states: seq<State>, actions: seq<Action>, session: string)
    requires IsRun(states, actions)
    ensures Attempts(states, actions, session) + Credit(states[|actions|], session) <= Requests(actions, session)
  {
    if actions != [] {
      var n := |actions| - 1;
      hide Credit, Apply;
      assert IsRun(states[..n + 1], actions[..n]);
      NoSpuriousAttempts(states[..n + 1], actions[..n], session);
      AttemptsOfPrefix(states, actions[..n], session);
      RunKeeps(states, actions, n);
      CreditStep(states[n], actions[n], session);
    }
  }

  lemma {:induction false} AttemptsOfPrefix(states: seq<State>, actions: seq<Action>, session: string)
    requires |states| > |actions|
    ensures Attempts(states[..|actions| + 1], actions, session) == Attempts(states, actions, session)
    decreases |actions|
  {
    if actions != [] {
      var n := |actions| - 1;
      AttemptsOfPrefix(states, actions[..n], session);
      AttemptsOfPrefix(states[..|actions| + 1], actions[..n], session);
      assert states[..|actions| + 1][..n + 1] == states[..n + 1];
    }
  }
}
