/**
 * Pausing and resuming the automatic continuation of a session, while background turns begin and finish.
 * One session is modelled; the states of different sessions do not meet.
 */
module Continuations {
  import opened Text

  /**
   * `cancel` is the turn whose cancel function is registered and `canceled` the turns whose context has been
   * canceled. `stored` is the flag of the durable control, which outlives the process.
   */
  datatype Control = Control(paused: bool, cancel: Option<nat>, canceled: set<nat>, stored: bool)

  /** A store that fails may still have taken the new value. */
  datatype Store = NoStore | Stored | FailedBefore | FailedAfter

  function Storing(before: bool, store: Store, value: bool): bool {
    if store == Stored || store == FailedAfter then value else before
  }

  predicate Succeeds(store: Store) {
    store == NoStore || store == Stored
  }

  function Paused(c: Control, store: Store): Control {
    Control(true, c.cancel, if c.cancel.Some? then c.canceled + {c.cancel.value} else c.canceled, Storing(c.stored, store, true))
  }

  function Resumed(c: Control, ended: bool, store: Store): Control {
    if ended then c
    else c.(stored := Storing(c.stored, store, false), paused := if Succeeds(store) then false else c.paused)
  }

  /** `asks` is whether there is a durable control to ask, `fails` whether asking fails. */
  predicate Admits(c: Control, asks: bool, fails: bool) {
    !c.paused && (asks ==> !fails && !c.stored)
  }

  function Begun(c: Control, turn: nat, asks: bool, fails: bool): Control {
    if Admits(c, asks, fails) then c.(cancel := Some(turn)) else c
  }

  /** The two halves of finishing a turn. */
  function Ended(c: Control, turn: nat): Control {
    c.(canceled := c.canceled + {turn})
  }

  function Cleared(c: Control): Control {
    c.(cancel := None)
  }

  /** `continuationState`, with the calls it makes to the store. */
  class Gate {
    var paused: bool
    var cancel: Option<nat>
    var canceled: set<nat>
    var stored: bool

    ghost function Contents(): Control
      reads this
    {
      Control(paused, cancel, canceled, stored)
    }

    constructor (persisted: bool)
      ensures Contents() == Control(false, None, {}, persisted)
    {
      paused, cancel, canceled, stored := false, None, {}, persisted;
    }

    method Set(store: Store, value: bool) returns (ok: bool)
      modifies this`stored
      ensures ok <==> Succeeds(store)
      ensures stored == Storing(old(stored), store, value)
    {
      if store == Stored || store == FailedAfter {
        stored := value;
      }
      ok := store == NoStore || store == Stored;
    }

    /** Sets the flag and cancels the registered turn even when the store fails. */
    method Pause(store: Store) returns (ok: bool)
      modifies this
      ensures ok <==> Succeeds(store)
      ensures Contents() == Paused(old(Contents()), store)
      ensures paused && (old(cancel).Some? ==> old(cancel).value in canceled) && (store == Stored ==> stored)
    {
      paused := true;
      if cancel.Some? {
        canceled := canceled + {cancel.value};
      }
      ok := Set(store, true);
    }

    /** Stays paused unless the store took the change. */
    method Resume(ended: bool, store: Store) returns (ok: bool)
      modifies this
      ensures ok <==> !ended && Succeeds(store)
      ensures Contents() == Resumed(old(Contents()), ended, store)
      ensures if ok then !paused && (store == Stored ==> !stored) else paused == old(paused)
      ensures ended ==> stored == old(stored)
    {
      if ended {
        return false;
      }
      ok := Set(store, false);
      if !ok {
        return;
      }
      paused := false;
    }

    method Begin(turn: nat, asks: bool, fails: bool) returns (ok: bool)
      modifies this
      ensures ok <==> Admits(old(Contents()), asks, fails)
      ensures Contents() == Begun(old(Contents()), turn, asks, fails)
      ensures ok <==> !old(paused) && (asks ==> !fails && !old(stored))
      ensures cancel == if ok then Some(turn) else old(cancel)
    {
      if paused {
        return false;
      }
      if asks {
        if fails {
          return false;
        }
        if stored {
          return false;
        }
      }
      cancel := Some(turn);
      ok := true;
    }

    method CancelOwn(turn: nat)
      modifies this
      ensures Contents() == Ended(old(Contents()), turn)
    {
      canceled := canceled + {turn};
    }

    method Clear()
      modifies this
      ensures Contents() == Cleared(old(Contents()))
    {
      cancel := None;
    }
  }

  // ---- Turns as threads ----

  /** A turn in the session lock: before `beginContinuation`, registered, between the halves of finishing, and leaving. */
  datatype Pc = Entered | Running | Finishing | Leaving

  /** `lock` is the turn that holds the session lock; `begun` are, as history, all turns that were registered. */
  datatype State = State(control: Control, lock: Option<nat>, turns: map<nat, Pc>, next: nat, begun: set<nat>)

  datatype Action =
    | Enter                                  // a turn acquires the session lock
    | Begin(turn: nat, fails: bool)
    | Resume(turn: nat, ended: bool, store: Store)  // a user's turn, which needs the lock as well
    | CancelOwn(turn: nat)
    | Clear(turn: nat)
    | Leave(turn: nat)
    | Pause(store: Store)                    // at any time, without the session lock
    | Restart                                // the process ends and a new one loads the session

  predicate At(s: State, turn: nat, pc: Pc) {
    turn in s.turns && s.turns[turn] == pc
  }

  /** `asks`: a durable control is configured. */
  predicate Enabled(asks: bool, s: State, a: Action) {
    match a
    case Enter => s.lock == None
    case Begin(t, _) => At(s, t, Entered)
    case Resume(t, _, store) => At(s, t, Entered) && (store == NoStore <==> !asks)
    case CancelOwn(t) => At(s, t, Running)
    case Clear(t) => At(s, t, Finishing)
    case Leave(t) => At(s, t, Leaving)
    case Pause(store) => store == NoStore <==> !asks
    case Restart => true
  }

  function Apply(asks: bool, s: State, a: Action): State
    requires Enabled(asks, s, a)
  {
    match a
    case Enter => s.(lock := Some(s.next), turns := s.turns[s.next := Entered], next := s.next + 1)
    case Begin(t, fails) =>
      s.(control := Begun(s.control, t, asks, fails),
         turns := s.turns[t := if Admits(s.control, asks, fails) then Running else Leaving],
         begun := if Admits(s.control, asks, fails) then s.begun + {t} else s.begun)
    case Resume(t, ended, store) => s.(control := Resumed(s.control, ended, store), turns := s.turns[t := Leaving])
    case CancelOwn(t) => s.(control := Ended(s.control, t), turns := s.turns[t := Finishing])
    case Clear(t) => s.(control := Cleared(s.control), turns := s.turns[t := Leaving])
    case Leave(t) => s.(lock := None, turns := s.turns - {t})
    case Pause(store) => s.(control := Paused(s.control, store))
    case Restart => s.(control := Control(false, None, s.control.canceled, s.control.stored), lock := None, turns := map[])
  }

  predicate Registered(s: State, turn: nat) {
    At(s, turn, Running) || At(s, turn, Finishing)
  }

  /** Only the holder of the session lock is in a turn, and the registered cancel function is its own. */
  ghost predicate Inv(s: State) {
    && (forall t :: t in s.turns ==> s.lock == Some(t) && t < s.next)
    && (forall t: nat :: Registered(s, t) <==> s.control.cancel == Some(t))
    && (forall t :: At(s, t, Finishing) ==> t in s.control.canceled)
    && (s.control.paused && s.control.cancel.Some? ==> s.control.cancel.value in s.control.canceled)
    && (forall t :: t in s.begun ==> t < s.next)
  }

  lemma ApplyKeeps(asks: bool, s: State, a: Action)
    requires Inv(s) && Enabled(asks, s, a)
    ensures Inv(Apply(asks, s, a))
  {
  }

  /** Finishing a turn takes back that turn's own cancel function, never another's. */
  lemma ClearsItsOwn(s: State, turn: nat)
    requires Inv(s) && At(s, turn, Finishing)
    ensures s.control.cancel == Some(turn)
    ensures forall t :: Registered(s, t) ==> t == turn
  {
  }

  // ---- Runs ----

  ghost predicate Init(s: State) {
    s.turns == map[] && s.lock == None && s.begun == {} && !s.control.paused && s.control.cancel == None
  }

  ghost predicate IsRun(asks: bool, states: seq<State>, actions: seq<Action>) {
    && |states| == |actions| + 1 && Init(states[0])
    && forall i :: 0 <= i < |actions| ==> Enabled(asks, states[i], actions[i]) && states[i + 1] == Apply(asks, states[i], actions[i])
  }

  lemma {:induction false} RunKeeps(asks: bool, states: seq<State>, actions: seq<Action>, i: nat)
    requires IsRun(asks, states, actions) && i < |states|
    ensures Inv(states[i])
  {
    if i > 0 {
      RunKeeps(asks, states, actions, i - 1);
      ApplyKeeps(asks, states[i - 1], actions[i - 1]);
    }
  }

  /** An explicit resume that reached the store, or, when the store was not told to pause, a restart. */
  predicate Undoes(a: Action, durable: bool) {
    || (a.Resume? && !a.ended && a.store != FailedBefore)
    || (a.Restart? && !durable)
  }

  /** Stopped for good: nothing runs but what is canceled, and nothing can begin. */
  ghost predicate Stopped(asks: bool, s: State, durable: bool) {
    && (s.control.paused || (durable && asks))
    && (durable && asks ==> s.control.stored)
    && forall t :: Registered(s, t) ==> t in s.control.canceled
  }

  lemma PauseStops(asks: bool, s: State, store: Store)
    requires Inv(s) && Enabled(asks, s, Pause(store))
    ensures Stopped(asks, Apply(asks, s, Pause(store)), store == Stored)
  {
  }

  lemma StaysStopped(asks: bool, s: State, a: Action, durable: bool)
    requires Inv(s) && Enabled(asks, s, a) && Stopped(asks, s, durable) && !Undoes(a, durable && asks)
    ensures Stopped(asks, Apply(asks, s, a), durable) && Apply(asks, s, a).begun == s.begun
  {
    ApplyKeeps(asks, s, a);
  }

  /**
   * Once a pause has returned, and until an explicit resume, every turn that is registered has been canceled
   * and no further turn begins. When the pause reached the durable control this holds across restarts.
   */
  lemma {:induction false} PauseHolds(asks: bool, states: seq<State>, actions: seq<Action>, i: nat, j: nat)
    requires IsRun(asks, states, actions) && i < j <= |actions| && actions[i].Pause?
    requires forall k :: i < k < j ==> !Undoes(actions[k], actions[i].store == Stored)
    ensures Stopped(asks, states[j], actions[i].store == Stored) && states[j].begun == states[i].begun
    decreases j
  {
    hide Apply, Inv, Stopped;
    RunKeeps(asks, states, actions, j - 1);
    if j == i + 1 {
      PauseStops(asks, states[i], actions[i].store);
      PauseBeginsNothing(asks, states[i], actions[i].store);
    } else {
      PauseHolds(asks, states, actions, i, j - 1);
      assert asks || actions[i].store != Stored;
      StaysStopped(asks, states[j - 1], actions[j - 1], actions[i].store == Stored);
    }
  }

  lemma PauseBeginsNothing(asks: bool, s: State, store: Store)
    requires Enabled(asks, s, Pause(store))
    ensures Apply(asks, s, Pause(store)).begun == s.begun
  {
  }

  // ---- When a pause ends ----

  /** A background turn that enters now is registered, unless asking the durable control fails. */
  predicate CanBegin(asks: bool, c: Control) {
    Admits(c, asks, false)
  }

  predicate ClearsFlag(a: Action) {
    a.Restart? || (a.Resume? && !a.ended && Succeeds(a.store))
  }

  /** A resume whose store call took the change, whatever it reported. */
  predicate ClearsStore(a: Action) {
    a.Resume? && !a.ended && (a.store == Stored || a.store == FailedAfter)
  }

  lemma {:induction false} FlagAfterPause(asks: bool, states: seq<State>, actions: seq<Action>, i: nat, j: nat)
    requires IsRun(asks, states, actions) && i < j <= |actions| && actions[i].Pause?
    requires forall k :: i < k < j ==> !actions[k].Pause?
    ensures !states[j].control.paused <==> exists k :: i < k < j && ClearsFlag(actions[k])
    decreases j
  {
    if j > i + 1 {
      FlagAfterPause(asks, states, actions, i, j - 1);
      hide Enabled;
      assert states[j] == Apply(asks, states[j - 1], actions[j - 1]);
    }
  }

  lemma {:induction false} StoreAfterPause(asks: bool, states: seq<State>, actions: seq<Action>, i: nat, j: nat)
    requires IsRun(asks, states, actions) && i < j <= |actions| && actions[i].Pause?
    requires forall k :: i < k < j ==> !actions[k].Pause?
    ensures states[j].control.stored <==>
            Storing(states[i].control.stored, actions[i].store, true) && forall k :: i < k < j ==> !ClearsStore(actions[k])
    decreases j
  {
    if j > i + 1 {
      StoreAfterPause(asks, states, actions, i, j - 1);
      hide Enabled;
      assert states[j] == Apply(asks, states[j - 1], actions[j - 1]);
    }
  }

  /**
   * Exactly when the last pause is over: the flag has been cleared, by a restart or a resume that succeeded, and
   * the durable control, if there is one, was never paused or a resume has reached it, even one that reported a
   * failure.
   */
  lemma PauseEnds(asks: bool, states: seq<State>, actions: seq<Action>, i: nat, j: nat)
    requires IsRun(asks, states, actions) && i < j <= |actions| && actions[i].Pause?
    requires forall k :: i < k < j ==> !actions[k].Pause?
    ensures CanBegin(asks, states[j].control) <==>
            && (exists k :: i < k < j && ClearsFlag(actions[k]))
            && (asks && Storing(states[i].control.stored, actions[i].store, true) ==> exists k :: i < k < j && ClearsStore(actions[k]))
  {
    FlagAfterPause(asks, states, actions, i, j);
    StoreAfterPause(asks, states, actions, i, j);
    hide IsRun, ClearsFlag, ClearsStore;
  }

  /** Until then no turn begins and every registered turn has been canceled. */
  lemma {:induction false} HeldUntilThen(asks: bool, states: seq<State>, actions: seq<Action>, i: nat, j: nat)
    requires IsRun(asks, states, actions) && i < j <= |actions| && actions[i].Pause?
    requires forall k :: i < k < j ==> !CanBegin(asks, states[k].control)
    ensures states[j].begun == states[i].begun && forall t :: Registered(states[j], t) ==> t in states[j].control.canceled
    decreases j
  {
    RunKeeps(asks, states, actions, j - 1);
    if j > i + 1 {
      HeldUntilThen(asks, states, actions, i, j - 1);
    }
    HeldStep(asks, states[j - 1], actions[j - 1]);
  }

  lemma HeldStep(asks: bool, s: State, a: Action)
    requires Inv(s) && Enabled(asks, s, a)
    requires a.Pause? || (!CanBegin(asks, s.control) && forall t :: Registered(s, t) ==> t in s.control.canceled)
    ensures Apply(asks, s, a).begun == s.begun
    ensures forall t :: Registered(Apply(asks, s, a), t) ==> t in Apply(asks, s, a).control.canceled
  {
    ApplyKeeps(asks, s, a);
  }

  // ---- Why `PauseHolds` excepts what it excepts ----

  /** A run in which an explicit resume after a pause lets the next background turn begin. */
  lemma ResumeEndsPause()
    ensures exists states: seq<State> ::
      && IsRun(true, states, [Pause(Stored), Enter, Action.Resume(0, false, Stored), Leave(0), Enter, Action.Begin(1, false)])
      && 1 in states[6].begun && 1 !in states[6].control.canceled
  {
    var s0 := State(Control(false, None, {}, false), None, map[], 0, {});
    var s1 := Apply(true, s0, Pause(Stored));
    var s2 := Apply(true, s1, Enter);
    var s3 := Apply(true, s2, Action.Resume(0, false, Stored));
    var s4 := Apply(true, s3, Leave(0));
    var s5 := Apply(true, s4, Enter);
    var s6 := Apply(true, s5, Action.Begin(1, false));
    var states := [s0, s1, s2, s3, s4, s5, s6];
    var actions := [Pause(Stored), Enter, Action.Resume(0, false, Stored), Leave(0), Enter, Action.Begin(1, false)];
    assert IsRun(true, states, actions);
  }

  /** A run in which a pause that did not reach the store is forgotten by a restart, and a background turn begins. */
  lemma FailedPauseIsForgotten()
    ensures exists states: seq<State> ::
      && IsRun(true, states, [Pause(FailedBefore), Restart, Enter, Action.Begin(0, false)])
      && 0 in states[4].begun && 0 !in states[4].control.canceled
  {
    var s0 := State(Control(false, None, {}, false), None, map[], 0, {});
    var s1 := Apply(true, s0, Pause(FailedBefore));
    var s2 := Apply(true, s1, Restart);
    var s3 := Apply(true, s2, Enter);
    var s4 := Apply(true, s3, Action.Begin(0, false));
    var states := [s0, s1, s2, s3, s4];
    assert IsRun(true, states, [Pause(FailedBefore), Restart, Enter, Action.Begin(0, false)]);
  }
}
