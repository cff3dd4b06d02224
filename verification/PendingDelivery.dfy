/**
 * Inputs arriving for a session at any moment of the turns that consume them. Two consumers share the queue
 * under the session lock: the parent turn, which drains it before it generates an answer, and the agent loop
 * inside every generation, which drains it again between rounds. The acknowledger is configured, as it is once
 * the subagent runtime has started.
 */
module PendingDelivery {
  import opened Text
  import opened PendingInput

  /**
   * Where the turn in the session lock is: none, outside of the agent loop, in the rounds of the loop, in the
   * loop's acknowledgements, about to put back the input the loop could not acknowledge, or in its own ones.
   */
  datatype Phase = Idle | Consuming | Generating | Settling | Returning | Acknowledging

  /**
   * Inputs are given by their position in `accepted`, the history of all that ever entered the queue. `open` is
   * what the turn has drained and not settled, `refused` what it could not acknowledge, and `loop` what the agent
   * loop holds. Also as history: what the loop put back one by one since it last answered, and the inputs
   * acknowledged, those consumed without an id to acknowledge, and those dropped.
   */
  datatype State = State(
    accepted: seq<Item>, queued: seq<nat>, inflight: map<string, Item>,
    phase: Phase, refused: seq<nat>, open: seq<nat>, loop: seq<nat>, returned: seq<nat>,
    acknowledged: multiset<nat>, consumed: multiset<nat>, dropped: multiset<nat>)

  datatype Action =
    | Arrive(id: string, content: string)
    | Begin                          // a turn for input of the user, which drains nothing itself
    | Drain                          // a turn for queued inputs
    | Generate
    | Take                           // the loop drains a further batch
    | LoopFails
    | LoopAnswers
    | LoopAcknowledges(stored: bool) // the next input the loop holds
    | Return                         // of the one it could not acknowledge
    | LoopEnds
    | Fail                           // appending, or what generation does around the loop
    | Succeed
    | Acknowledge(stored: bool)      // the next open input
    | Finish

  function At(accepted: seq<Item>, t: nat): Item {
    if t < |accepted| then accepted[t] else Item("", "")
  }

  function Items(accepted: seq<Item>, tokens: seq<nat>): (items: seq<Item>)
    ensures |items| == |tokens| && forall i :: 0 <= i < |items| ==> items[i] == At(accepted, tokens[i])
  {
    seq(|tokens|, i requires 0 <= i < |tokens| => At(accepted, tokens[i]))
  }

  /** What has been drained and not settled. */
  function Held(s: State): seq<nat> {
    s.refused + s.open + s.loop
  }

  function Line(s: State): seq<nat> {
    Held(s) + s.queued
  }

  predicate Enabled(s: State, a: Action) {
    match a
    case Arrive(_, _) => true
    case Begin => s.phase == Idle
    case Drain => s.phase == Idle && s.queued != []
    case Generate => s.phase == Consuming
    case Take => s.phase == Generating
    case LoopFails => s.phase == Generating
    case LoopAnswers => s.phase == Generating
    case LoopAcknowledges(_) => s.phase == Settling && s.loop != []
    case Return => s.phase == Returning && s.loop != []
    case LoopEnds => s.phase == Settling && s.loop == []
    case Fail => s.phase == Consuming
    case Succeed => s.phase == Consuming
    case Acknowledge(_) => s.phase == Acknowledging && s.open != []
    case Finish => s.phase == Acknowledging && s.open == []
  }

  predicate Fits(s: State, batch: seq<nat>) {
    batch == [] || |batch| + |s.queued| <= MAX_PENDING_MESSAGES
  }

  /** What `RequeueIdentified` does with inputs that are returnable. */
  function Requeued(s: State, batch: seq<nat>): State {
    var left := s.(inflight := s.inflight - Ids(Items(s.accepted, batch)));
    if Fits(s, batch) then left.(queued := batch + s.queued) else left.(dropped := s.dropped + multiset(batch))
  }

  function Arrived(s: State, id: string, content: string): State {
    if Enters(Items(s.accepted, s.queued), s.inflight, id, content) then
      s.(accepted := s.accepted + [Item(id, TrimSpace(content))], queued := s.queued + [|s.accepted|])
    else s
  }

  function Drained(s: State): State {
    s.(queued := [], inflight := Flown(s.inflight, Items(s.accepted, s.queued)))
  }

  /** An input that needs no acknowledgement, or got it. */
  function Settled(s: State, t: nat): State {
    var id := At(s.accepted, t).id;
    if id == "" then s.(consumed := s.consumed + multiset{t})
    else s.(acknowledged := s.acknowledged + multiset{t}, inflight := s.inflight - {id})
  }

  predicate IsRefused(s: State, t: nat, stored: bool) {
    At(s.accepted, t).id != "" && !stored
  }

  /** The inputs an action puts back. */
  function Batch(s: State, a: Action): seq<nat>
    requires Enabled(s, a)
  {
    match a
    case LoopFails => s.loop
    case Return => [s.loop[0]]
    case Fail => s.open
    case Finish => s.refused
    case _ => []
  }

  function Apply(s: State, a: Action): State
    requires Enabled(s, a)
  {
    match a
    case Arrive(id, content) => Arrived(s, id, content)
    case Begin => s.(phase := Consuming)
    case Drain => Drained(s).(phase := Consuming, open := s.queued)
    case Generate => s.(phase := Generating)
    case Take => Drained(s).(loop := s.loop + s.queued)
    case LoopFails => Requeued(s, s.loop).(phase := Consuming, loop := [])
    case LoopAnswers => s.(phase := Settling, returned := [])
    case LoopAcknowledges(stored) =>
      if IsRefused(s, s.loop[0], stored) then s.(phase := Returning)
      else Settled(s, s.loop[0]).(loop := s.loop[1..])
    case Return =>
      Requeued(s, [s.loop[0]]).(phase := Settling, loop := s.loop[1..],
                                returned := if Fits(s, [s.loop[0]]) then s.returned + [s.loop[0]] else s.returned)
    case LoopEnds => s.(phase := Consuming)
    case Fail => Requeued(s, s.open).(phase := Idle, open := [])
    case Succeed => s.(phase := Acknowledging)
    case Acknowledge(stored) =>
      if IsRefused(s, s.open[0], stored) then s.(refused := s.refused + [s.open[0]], open := s.open[1..])
      else Settled(s, s.open[0]).(open := s.open[1..])
    case Finish => Requeued(s, s.refused).(phase := Idle, refused := [])
  }

  ghost predicate Init(s: State) {
    s == State([], [], map[], Idle, [], [], [], [], multiset{}, multiset{}, multiset{})
  }

  // ---- Invariant ----

  predicate Shape(s: State) {
    && (s.phase != Acknowledging ==> s.refused == [])
    && (s.phase == Idle ==> s.open == [])
    && (s.phase !in {Generating, Settling, Returning} ==> s.loop == [])
    && |s.queued| <= MAX_PENDING_MESSAGES
  }

  /** All places an input can be in. */
  function Everywhere(s: State): multiset<nat> {
    multiset(Line(s)) + s.acknowledged + s.consumed + s.dropped
  }

  /** Every input ever accepted is in one place, once. */
  ghost predicate Conserved(s: State) {
    forall t: nat :: Everywhere(s)[t] == if t < |s.accepted| then 1 else 0
  }

  function TokenIds(accepted: seq<Item>, tokens: seq<nat>): set<string> {
    set t | t in tokens && At(accepted, t).id != "" :: At(accepted, t).id
  }

  ghost predicate Proper(accepted: seq<Item>, tokens: seq<nat>) {
    forall t :: t in tokens ==> IsInput(At(accepted, t).content)
  }

  ghost predicate Differ(accepted: seq<Item>, tokens: seq<nat>) {
    forall t, u :: t in tokens && u in tokens && t != u && At(accepted, t).id != "" ==> At(accepted, t).id != At(accepted, u).id
  }

  /** In flight is exactly what is held. */
  ghost predicate Flight(accepted: seq<Item>, inflight: map<string, Item>, tokens: seq<nat>) {
    && inflight.Keys == TokenIds(accepted, tokens)
    && forall t :: t in tokens && At(accepted, t).id != "" ==> At(accepted, t).id in inflight && inflight[At(accepted, t).id] == At(accepted, t)
  }

  ghost predicate Anonymous(s: State) {
    forall t :: t in s.consumed ==> At(s.accepted, t).id == ""
  }

  ghost predicate Inv(s: State) {
    && Shape(s) && Conserved(s) && Anonymous(s)
    && Proper(s.accepted, Line(s)) && Differ(s.accepted, Line(s)) && Flight(s.accepted, s.inflight, Held(s))
  }

  // ---- Sequences of inputs ----

  lemma IdsOfItems(accepted: seq<Item>, tokens: seq<nat>)
    ensures Ids(Items(accepted, tokens)) == TokenIds(accepted, tokens)
  {
    var items := Items(accepted, tokens);
    forall t | t in tokens ensures At(accepted, t) in items {
      var i :| 0 <= i < |tokens| && tokens[i] == t;
      assert items[i] == At(accepted, t);
    }
    forall x | x in items ensures exists t :: t in tokens && At(accepted, t) == x {
      var i :| 0 <= i < |items| && items[i] == x;
      assert tokens[i] in tokens;
    }
  }

  lemma OnceApart(tokens: seq<nat>, i: nat, j: nat)
    requires i < j < |tokens| && multiset(tokens)[tokens[i]] <= 1
    ensures tokens[i] != tokens[j]
  {
    assert tokens == tokens[..j] + tokens[j..];
    assert tokens[..j][i] == tokens[i] && tokens[j..][0] == tokens[j];
  }

  /** Different inputs of the line, as what the queue sees, have different ids. */
  lemma ItemsDiffer(accepted: seq<Item>, tokens: seq<nat>)
    requires Differ(accepted, tokens) && Proper(accepted, tokens) && forall t :: multiset(tokens)[t] <= 1
    ensures IdsDiffer(Items(accepted, tokens)) && AreInputs(Items(accepted, tokens))
  {
    hide IsInput;
    var items := Items(accepted, tokens);
    forall i, j | 0 <= i < j < |items| && items[i].id != "" ensures items[i].id != items[j].id {
      OnceApart(tokens, i, j);
      assert tokens[i] in tokens && tokens[j] in tokens;
    }
    forall x | x in items ensures IsInput(x.content) {
      var i :| 0 <= i < |items| && items[i] == x;
      assert tokens[i] in tokens;
    }
  }

  // ---- What is put back is returnable ----

  /** Some of what is held, and nothing twice. */
  ghost predicate IsPart(s: State, batch: seq<nat>) {
    multiset(batch) <= multiset(Held(s))
  }

  lemma BatchIsPart(s: State, a: Action)
    requires Enabled(s, a)
    ensures IsPart(s, Batch(s, a))
  {
    if a.Return? {
      assert s.loop == [s.loop[0]] + s.loop[1..];
    }
  }

  lemma LineOnce(s: State, t: nat)
    requires Conserved(s)
    ensures multiset(Line(s))[t] <= 1
    ensures multiset(Line(s))[t] == multiset(Held(s))[t] + multiset(s.queued)[t]
  {
    assert Everywhere(s)[t] <= 1;
  }

  lemma PartIsHeld(s: State, batch: seq<nat>)
    requires Conserved(s) && IsPart(s, batch)
    ensures forall t: nat :: multiset(batch)[t] <= 1 && (t in batch ==> t in Held(s) && t !in s.queued)
  {
    hide Held, Line, Conserved;
    forall t: nat ensures multiset(batch)[t] <= 1 && (t in batch ==> t in Held(s) && t !in s.queued) {
      LineOnce(s, t);
    }
  }

  /** What is put back is never refused for a conflict. */
  lemma PartIsReturnable(s: State, batch: seq<nat>)
    requires Inv(s) && IsPart(s, batch)
    ensures Returnable(Items(s.accepted, batch), Items(s.accepted, s.queued), s.inflight)
  {
    PartIsHeld(s, batch);
    PartDiffers(s, batch);
    hide Held, Everywhere, Items, IdsDiffer, AreInputs, IsInput, Differ, Proper, Shape, Conserved, Ids, TokenIds;
    IdsOfItems(s.accepted, batch);
    IdsOfItems(s.accepted, s.queued);
    forall x | x in Items(s.accepted, batch) && x.id in s.inflight ensures s.inflight[x.id] == x {
      var i :| 0 <= i < |batch| && Items(s.accepted, batch)[i] == x;
      assert batch[i] in batch && At(s.accepted, batch[i]) == x;
      assert x.id in TokenIds(s.accepted, Held(s));
    }
  }

  lemma PartDiffers(s: State, batch: seq<nat>)
    requires Inv(s) && (forall t: nat :: multiset(batch)[t] <= 1 && (t in batch ==> t in Held(s) && t !in s.queued))
    ensures IdsDiffer(Items(s.accepted, batch)) && AreInputs(Items(s.accepted, batch))
    ensures TokenIds(s.accepted, batch) !! TokenIds(s.accepted, s.queued)
  {
    hide Everywhere, Items, IdsDiffer, AreInputs, IsInput;
    assert forall t :: t in batch || t in s.queued ==> t in Line(s);
    ItemsDiffer(s.accepted, batch);
  }

  /** Whatever an action puts back is returnable. */
  lemma HeldIsReturnable(s: State, a: Action)
    requires Inv(s) && Enabled(s, a)
    ensures Returnable(Items(s.accepted, Batch(s, a)), Items(s.accepted, s.queued), s.inflight)
  {
    BatchIsPart(s, a);
    PartIsReturnable(s, Batch(s, a));
  }

  // ---- Every step keeps the invariant ----

  /** Nothing new is in the line, and nothing is lost. */
  ghost predicate Moves(s: State, s': State) {
    && s'.accepted == s.accepted && Everywhere(s') == Everywhere(s) && Shape(s')
    && (forall t :: t in Line(s') ==> t in Line(s))
    && (forall t :: t in s'.consumed ==> t in s.consumed || At(s.accepted, t).id == "")
  }

  lemma MovesKeeps(s: State, s': State)
    requires Inv(s) && Moves(s, s') && Flight(s'.accepted, s'.inflight, Held(s'))
    ensures Inv(s')
  {
    hide Everywhere, Line, Held, At, IsInput, Shape, Flight;
  }

  lemma FlightSame(accepted: seq<Item>, inflight: map<string, Item>, a: seq<nat>, b: seq<nat>)
    requires Flight(accepted, inflight, a) && multiset(a) == multiset(b)
    ensures Flight(accepted, inflight, b)
  {
    assert forall t :: t in a <==> t in multiset(a);
    assert forall t :: t in b <==> t in multiset(b);
    assert TokenIds(accepted, a) == TokenIds(accepted, b);
  }

  /** What leaves the held inputs leaves the in-flight ones. */
  lemma FlightLeaves(accepted: seq<Item>, inflight: map<string, Item>, a: seq<nat>, b: seq<nat>, gone: seq<nat>)
    requires Flight(accepted, inflight, a) && Differ(accepted, a)
    requires forall t :: t in a <==> t in b || t in gone
    requires forall t :: t in gone ==> t !in b
    ensures Flight(accepted, inflight - TokenIds(accepted, gone), b)
  {
  }

  lemma FlightGrows(accepted: seq<Item>, inflight: map<string, Item>, held: seq<nat>, queued: seq<nat>)
    requires Flight(accepted, inflight, held) && Differ(accepted, held + queued)
    ensures Flight(accepted, Flown(inflight, Items(accepted, queued)), held + queued)
  {
    var items := Items(accepted, queued);
    FlownIs(inflight, items);
    IdsOfItems(accepted, queued);
    hide Flown;
    forall t | t in held + queued && At(accepted, t).id != ""
      ensures At(accepted, t).id in Flown(inflight, items) && Flown(inflight, items)[At(accepted, t).id] == At(accepted, t)
    {
      var id := At(accepted, t).id;
      if id in Ids(items) {
        var x := Flown(inflight, items)[id];
        var i :| 0 <= i < |items| && items[i] == x;
        assert queued[i] in held + queued;
      }
    }
  }

  lemma Members(a: seq<nat>, b: seq<nat>)
    ensures multiset(a) <= multiset(b) ==> forall t :: t in a ==> t in b
  {
    assert forall t :: t in a <==> t in multiset(a);
    assert forall t :: t in b <==> t in multiset(b);
  }

  /** Held inputs change places, or only the phase changes. */
  lemma SameKeeps(s: State, s': State)
    requires Inv(s) && Shape(s') && s' == s.(phase := s'.phase, returned := s'.returned, refused := s'.refused, open := s'.open)
    requires multiset(Held(s')) == multiset(Held(s))
    ensures Inv(s')
  {
    Members(Line(s'), Line(s));
    FlightSame(s.accepted, s.inflight, Held(s), Held(s'));
    assert Moves(s, s') by {
      hide Held;
    }
    MovesKeeps(s, s');
  }

  lemma DrainKeeps(s: State, s': State)
    requires Inv(s) && Shape(s') && s' == Drained(s).(phase := s'.phase, open := s'.open, loop := s'.loop)
    requires Held(s') == Held(s) + s.queued
    ensures Inv(s')
  {
    assert Line(s') == Line(s);
    hide Held, Shape, At, IsInput;
    FlightGrows(s.accepted, s.inflight, Held(s), s.queued);
    assert Moves(s, s');
    MovesKeeps(s, s');
  }

  lemma LineIs(s: State)
    ensures multiset(Line(s)) == multiset(Held(s)) + multiset(s.queued)
    ensures multiset(Held(s)) == multiset(s.refused) + multiset(s.open) + multiset(s.loop)
  {
  }

  /** Held inputs of which `gone` leave for the queue or for good. */
  lemma LeaveKeeps(s: State, s': State, gone: seq<nat>)
    requires Inv(s) && Moves(s, s') && multiset(Held(s)) == multiset(Held(s')) + multiset(gone)
    requires s'.inflight == s.inflight - TokenIds(s.accepted, gone)
    ensures Inv(s')
  {
    assert s'.accepted == s.accepted;
    hide Held, Moves, Everywhere, At, Shape, IsInput;
    forall t: nat ensures (t in Held(s) <==> t in Held(s') || t in gone) && (t in gone ==> t !in Held(s')) {
      LineOnce(s, t);
      assert (t in gone <==> t in multiset(gone)) && (t in Held(s) <==> t in multiset(Held(s))) && (t in Held(s') <==> t in multiset(Held(s')));
    }
    assert Differ(s.accepted, Held(s));
    FlightLeaves(s.accepted, s.inflight, Held(s), Held(s'), gone);
    MovesKeeps(s, s');
  }

  lemma RequeueEverywhere(s: State, s': State, batch: seq<nat>)
    requires multiset(Held(s)) == multiset(Held(s')) + multiset(batch)
    requires s'.acknowledged == s.acknowledged && s'.consumed == s.consumed
    requires || (s'.queued == batch + s.queued && s'.dropped == s.dropped)
             || (s'.queued == s.queued && s'.dropped == s.dropped + multiset(batch))
    ensures Everywhere(s') == Everywhere(s) && multiset(Line(s')) <= multiset(Line(s))
  {
    LineIs(s);
    LineIs(s');
    hide Held, Line;
  }

  lemma RequeueMoves(s: State, s': State, batch: seq<nat>)
    requires Shape(s')
    requires s' == Requeued(s, batch).(phase := s'.phase, refused := s'.refused, open := s'.open, loop := s'.loop, returned := s'.returned)
    requires multiset(Held(s)) == multiset(Held(s')) + multiset(batch)
    ensures Moves(s, s') && s'.inflight == s.inflight - TokenIds(s.accepted, batch)
  {
    hide Held, Line, Items, Shape, Ids, TokenIds, At, Everywhere;
    IdsOfItems(s.accepted, batch);
    RequeueEverywhere(s, s', batch);
    Members(Line(s'), Line(s));
  }

  lemma SettleEverywhere(s: State, s': State, t: nat)
    requires s' == Settled(s, t).(open := s'.open, loop := s'.loop)
    requires multiset(Held(s)) == multiset(Held(s')) + multiset{t}
    ensures Everywhere(s') == Everywhere(s)
  {
    LineIs(s);
    LineIs(s');
    hide Held, Line;
  }

  lemma HeldMembers(s: State, s': State, t: nat)
    requires s'.queued == s.queued && multiset(Held(s)) == multiset(Held(s')) + multiset{t}
    ensures forall u :: u in Line(s') ==> u in Line(s)
  {
    LineIs(s);
    LineIs(s');
    Members(Line(s'), Line(s));
    hide Held, Line;
  }

  lemma SettledLeaves(s: State, t: nat)
    ensures var s' := Settled(s, t);
            && s'.inflight == s.inflight - TokenIds(s.accepted, [t])
            && (forall u :: u in s'.consumed ==> u in s.consumed || At(s.accepted, u).id == "")
  {
    assert TokenIds(s.accepted, [t]) == (if At(s.accepted, t).id == "" then {} else {At(s.accepted, t).id});
    assert s.inflight - {} == s.inflight;
  }

  lemma SettleMoves(s: State, s': State, t: nat)
    requires Shape(s') && s' == Settled(s, t).(open := s'.open, loop := s'.loop)
    requires multiset(Held(s)) == multiset(Held(s')) + multiset{t}
    ensures Moves(s, s') && s'.inflight == s.inflight - TokenIds(s.accepted, [t])
  {
    SettleEverywhere(s, s', t);
    SettledLeaves(s, t);
    HeldMembers(s, s', t);
    hide Held, Line, Shape, TokenIds, At, Everywhere;
  }

  lemma NotInLine(s: State, id: string, content: string)
    requires Inv(s) && Enters(Items(s.accepted, s.queued), s.inflight, id, content)
    ensures id == "" || id !in TokenIds(s.accepted, Line(s))
  {
    IdsOfItems(s.accepted, s.queued);
    hide Items, IsInput, TrimSpace, Ids, At, Held;
  }

  lemma ArriveEverywhere(s: State, id: string, content: string)
    requires Conserved(s) && Enters(Items(s.accepted, s.queued), s.inflight, id, content)
    ensures Conserved(Arrived(s, id, content)) && Line(Arrived(s, id, content)) == Line(s) + [|s.accepted|]
  {
    var s' := Arrived(s, id, content);
    hide Enters, Items, TrimSpace, Conserved;
    assert Line(s') == Line(s) + [|s.accepted|];
    OneMore(s, s');
  }

  lemma OneMore(s: State, s': State)
    requires Conserved(s) && Line(s') == Line(s) + [|s.accepted|] && |s'.accepted| == |s.accepted| + 1
    requires s'.acknowledged == s.acknowledged && s'.consumed == s.consumed && s'.dropped == s.dropped
    ensures Conserved(s')
  {
    hide Line;
    var n: nat := |s.accepted|;
    assert multiset(Line(s')) == multiset(Line(s)) + multiset{n};
    forall t: nat ensures Everywhere(s')[t] == if t < |s'.accepted| then 1 else 0 {
      assert Everywhere(s)[t] == if t < |s.accepted| then 1 else 0;
    }
  }

  /** The history grows at the end, so what is in the line is the same input as before. */
  lemma LineIsOld(s: State, t: nat)
    requires Conserved(s) && (t in Line(s) || t in s.consumed)
    ensures t < |s.accepted|
  {
    assert Everywhere(s)[t] > 0;
  }

  lemma ArriveKeeps(s: State, id: string, content: string)
    requires Inv(s) && Enters(Items(s.accepted, s.queued), s.inflight, id, content)
    ensures Inv(Arrived(s, id, content))
  {
    var s', n := Arrived(s, id, content), |s.accepted|;
    ArriveEverywhere(s, id, content);
    NotInLine(s, id, content);
    assert Shape(s') && s'.consumed == s.consumed && s'.inflight == s.inflight && Held(s') == Held(s);
    assert s'.accepted[n] == Item(id, TrimSpace(content)) && IsInput(s'.accepted[n].content);
    assert forall t :: t in Held(s) ==> t in Line(s);
    hide Shape, Conserved, IsInput, TrimSpace, Enters, Arrived, Items, Held, Line;
    forall t: nat ensures t in Line(s) || t in s.consumed ==> t < n && At(s'.accepted, t) == At(s.accepted, t) {
      if t in Line(s) || t in s.consumed {
        LineIsOld(s, t);
      }
    }
    assert Differ(s'.accepted, Line(s')) by {
      ArriveDiffers(s.accepted, s'.accepted, Line(s));
    }
    assert Flight(s'.accepted, s'.inflight, Held(s'));
    assert Proper(s'.accepted, Line(s'));
  }

  lemma ArriveDiffers(before: seq<Item>, after: seq<Item>, line: seq<nat>)
    requires |after| == |before| + 1 && Differ(before, line) && forall t :: t in line ==> t < |before| && At(after, t) == At(before, t)
    requires At(after, |before|).id == "" || At(after, |before|).id !in TokenIds(before, line)
    ensures Differ(after, line + [|before|])
  {
  }

  /** `gone` is the front of one of the three lists. */
  predicate FrontLeaves(s: State, s': State, gone: seq<nat>) {
    || (s.refused == gone + s'.refused && s.open == s'.open && s.loop == s'.loop)
    || (s.refused == s'.refused && s.open == gone + s'.open && s.loop == s'.loop)
    || (s.refused == s'.refused && s.open == s'.open && s.loop == gone + s'.loop)
  }

  lemma HeldLeaves(s: State, s': State, gone: seq<nat>)
    requires FrontLeaves(s, s', gone)
    ensures multiset(Held(s)) == multiset(Held(s')) + multiset(gone)
  {
    LineIs(s);
    LineIs(s');
    Regroup(multiset(gone), multiset(s'.refused), multiset(s'.open), multiset(s'.loop));
    hide Held, Line;
  }

  lemma Regroup(gone: multiset<nat>, a: multiset<nat>, b: multiset<nat>, c: multiset<nat>)
    ensures (gone + a) + b + c == (a + b + c) + gone == a + (gone + b) + c == a + b + (gone + c)
  {
  }

  lemma AcknowledgeForm(s: State, a: Action, t: nat)
    requires Shape(s) && Enabled(s, a)
    requires if a.Acknowledge? then t == s.open[0] && !IsRefused(s, t, a.stored)
             else a.LoopAcknowledges? && t == s.loop[0] && !IsRefused(s, t, a.stored)
    ensures var s' := Apply(s, a);
            Shape(s') && FrontLeaves(s, s', [t]) && s' == Settled(s, t).(open := s'.open, loop := s'.loop)
  {
    hide At;
    if a.Acknowledge? {
      assert s.open == [t] + s.open[1..];
    } else {
      assert s.loop == [t] + s.loop[1..];
    }
  }

  lemma AcknowledgesKeep(s: State, a: Action, t: nat)
    requires Inv(s) && Enabled(s, a)
    requires if a.Acknowledge? then t == s.open[0] && !IsRefused(s, t, a.stored)
             else a.LoopAcknowledges? && t == s.loop[0] && !IsRefused(s, t, a.stored)
    ensures Inv(Apply(s, a))
  {
    var s' := Apply(s, a);
    AcknowledgeForm(s, a, t);
    hide *;
    HeldLeaves(s, s', [t]);
    SettleMoves(s, s', t);
    LeaveKeeps(s, s', [t]);
  }

  /** The input at the front is put aside. */
  lemma RefuseKeeps(s: State)
    requires Inv(s) && s.phase == Acknowledging && s.open != []
    ensures Inv(s.(refused := s.refused + [s.open[0]], open := s.open[1..]))
  {
    var s' := s.(refused := s.refused + [s.open[0]], open := s.open[1..]);
    assert s.refused + s.open == s'.refused + s'.open;
    assert Held(s') == Held(s) && Shape(s');
    hide *;
    SameKeeps(s, s');
  }

  /** Putting back changes only the queue, what is in flight and what is dropped. */
  lemma RequeuedIs(s: State, batch: seq<nat>)
    requires |s.queued| <= MAX_PENDING_MESSAGES
    ensures var r := Requeued(s, batch);
            && |r.queued| <= MAX_PENDING_MESSAGES
            && r.phase == s.phase && r.refused == s.refused && r.open == s.open && r.loop == s.loop
  {
  }

  lemma RequeueForm(s: State, a: Action)
    requires Shape(s) && Enabled(s, a) && (a.LoopFails? || a.Return? || a.Fail? || a.Finish?)
    ensures var s', batch := Apply(s, a), Batch(s, a);
            && Shape(s') && FrontLeaves(s, s', batch)
            && s' == Requeued(s, batch).(phase := s'.phase, refused := s'.refused, open := s'.open, loop := s'.loop, returned := s'.returned)
  {
    hide Requeued, Fits;
    RequeuedIs(s, Batch(s, a));
    assert s.loop != [] ==> s.loop == [s.loop[0]] + s.loop[1..];
    assert Batch(s, a) + [] == Batch(s, a);
  }

  lemma RequeuesKeep(s: State, a: Action)
    requires Inv(s) && Enabled(s, a) && (a.LoopFails? || a.Return? || a.Fail? || a.Finish?)
    ensures Inv(Apply(s, a))
  {
    var s', batch := Apply(s, a), Batch(s, a);
    RequeueForm(s, a);
    hide *;
    HeldLeaves(s, s', batch);
    RequeueMoves(s, s', batch);
    LeaveKeeps(s, s', batch);
  }

  lemma ApplyKeeps(s: State, a: Action)
    requires Inv(s) && Enabled(s, a)
    ensures Inv(Apply(s, a))
  {
    hide Inv, Arrived, Enters, Items, At, Requeued, Flown, Settled;
    match a {
      case Arrive(id, content) => ArrivedKeeps(s, id, content);
      case LoopAcknowledges(stored) =>
        if IsRefused(s, s.loop[0], stored) { PhaseKeeps(s, a); } else { AcknowledgesKeep(s, a, s.loop[0]); }
      case Acknowledge(stored) =>
        if IsRefused(s, s.open[0], stored) { RefuseKeeps(s); } else { AcknowledgesKeep(s, a, s.open[0]); }
      case Drain => DrainsKeep(s, a);
      case Take => DrainsKeep(s, a);
      case Begin => PhaseKeeps(s, a);
      case Generate => PhaseKeeps(s, a);
      case LoopAnswers => PhaseKeeps(s, a);
      case LoopEnds => PhaseKeeps(s, a);
      case Succeed => PhaseKeeps(s, a);
      case _ => RequeuesKeep(s, a);
    }
  }

  lemma ArrivedKeeps(s: State, id: string, content: string)
    requires Inv(s)
    ensures Inv(Arrived(s, id, content))
  {
    if Enters(Items(s.accepted, s.queued), s.inflight, id, content) {
      hide Inv, Arrived, Enters, Items;
      ArriveKeeps(s, id, content);
    }
  }

  lemma SameLine(s: State, a: Action)
    requires Shape(s) && Enabled(s, a)
    requires a.Begin? || a.Drain? || a.Generate? || a.Take? || a.LoopAnswers? || a.Succeed?
    ensures Line(Apply(s, a)) == Line(s)
    ensures a.Drain? || a.Take? ==> Held(Apply(s, a)) == Held(s) + s.queued
  {
    var s' := Apply(s, a);
    assert a.Drain? ==> s.refused == [] && s.open == [] && s.loop == [];
    assert a.Drain? ==> s'.open == s.queued && s'.refused == [] && s'.loop == [] && s'.queued == [];
    assert a.Take? ==> s'.refused == s.refused && s'.open == s.open && s'.loop == s.loop + s.queued && s'.queued == [];
    assert a.Drain? || a.Take? || (s'.refused == s.refused && s'.open == s.open && s'.loop == s.loop && s'.queued == s.queued);
    hide Apply, Enabled, Shape;
  }

  lemma DrainsKeep(s: State, a: Action)
    requires Inv(s) && Enabled(s, a) && (a.Drain? || a.Take?)
    ensures Inv(Apply(s, a))
  {
    var s' := Apply(s, a);
    SameLine(s, a);
    assert Shape(s);
    hide Inv, Flown, Items, Held, Line;
    assert Shape(s') && s' == Drained(s).(phase := s'.phase, open := s'.open, loop := s'.loop);
    hide *;
    DrainKeeps(s, s');
  }

  lemma PhaseKeeps(s: State, a: Action)
    requires Inv(s) && Enabled(s, a)
    requires || a.Begin? || a.Generate? || a.LoopAnswers? || a.LoopEnds? || a.Succeed?
             || (a.LoopAcknowledges? && IsRefused(s, s.loop[0], a.stored))
    ensures Inv(Apply(s, a))
  {
    var s' := Apply(s, a);
    assert Shape(s) && Shape(s') && Held(s') == Held(s) && s' == s.(phase := s'.phase, returned := s'.returned, refused := s'.refused, open := s'.open);
    hide *;
    SameKeeps(s, s');
  }

  /**
   * What settling one input of the turn or its loop comes to: without an id it is done with; an identified one is
   * acknowledged and no longer in flight, or refused and put back.
   */
  lemma SettlingIs(s: State, stored: bool)
    requires Shape(s) && ((s.phase == Acknowledging && s.open != []) || (s.phase == Settling && s.loop != []))
    ensures var turn := s.phase == Acknowledging;
            var t := if turn then s.open[0] else s.loop[0];
            var x := At(s.accepted, t);
            var a := if turn then Acknowledge(stored) else LoopAcknowledges(stored);
            && Enabled(s, a)
            && var s' := Apply(s, a);
            && (x.id == "" ==> s'.consumed == s.consumed + multiset{t} && s'.acknowledged == s.acknowledged && s'.inflight == s.inflight)
            && (x.id != "" && stored ==> s'.acknowledged == s.acknowledged + multiset{t} && x.id !in s'.inflight && s'.consumed == s.consumed)
            && (x.id != "" && !stored ==> s'.acknowledged == s.acknowledged && s'.consumed == s.consumed)
            && (x.id != "" && !stored ==> if turn then s'.refused == s.refused + [t] else s'.phase == Returning && s'.loop == s.loop)
  {
  }
}
