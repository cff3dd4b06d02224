/** Every run of `PendingDelivery`: where its inputs are, which are dropped, and when the queue keeps their order. */
module PendingRuns {
  import opened Text
  import opened PendingInput
  import opened PendingDelivery
  import opened PendingOrder

  ghost predicate Next(s: State, s': State) {
    exists a :: Enabled(s, a) && s' == Apply(s, a)
  }

  ghost predicate IsRun(run: seq<State>) {
    run != [] && Init(run[0]) && forall i :: 0 <= i < |run| - 1 ==> Next(run[i], run[i + 1])
  }

  lemma {:induction false} RunKeeps(run: seq<State>, i: nat)
    requires IsRun(run) && i < |run|
    ensures Inv(run[i])
  {
    hide Inv, Apply, Enabled;
    if i == 0 {
      InitIsInv(run[0]);
    } else {
      RunKeeps(run, i - 1);
      assert Next(run[i - 1], run[i]);
      var a :| Enabled(run[i - 1], a) && run[i] == Apply(run[i - 1], a);
      ApplyKeeps(run[i - 1], a);
    }
  }

  lemma InitIsInv(s: State)
    requires Init(s)
    ensures Inv(s)
  {
  }

  /**
   * At every moment of every run each identified input that ever entered the queue is in exactly one place:
   * queued or held, once, or acknowledged, or dropped; and between turns nothing is in flight.
   */
  lemma EveryInputIsAccountedFor(run: seq<State>, i: nat, t: nat)
    requires IsRun(run) && i < |run| && t < |run[i].accepted| && At(run[i].accepted, t).id != ""
    ensures var s := run[i]; multiset(Line(s))[t] + s.acknowledged[t] + s.dropped[t] == 1
    ensures run[i].phase == Idle ==> Line(run[i]) == run[i].queued && run[i].inflight == map[]
  {
    RunKeeps(run, i);
    var s := run[i];
    hide IsRun, IsInput;
    assert Everywhere(s)[t] == 1 && t !in s.consumed;
    if s.phase == Idle {
      assert TokenIds(s.accepted, []) == {};
    }
  }

  /**
   * In every run what the turn or its loop puts back, many at once or one by one, is returnable, and it is
   * dropped exactly when the queue has no room for all of it.
   */
  lemma OnlyOverflowDrops(run: seq<State>, i: nat, a: Action)
    requires IsRun(run) && i < |run| && Enabled(run[i], a)
    ensures var s, batch := run[i], Batch(run[i], a);
            && Returnable(Items(s.accepted, batch), Items(s.accepted, s.queued), s.inflight)
            && (Apply(s, a).dropped != s.dropped <==> batch != [] && |batch| + |s.queued| > MAX_PENDING_MESSAGES)
            && (Apply(s, a).dropped != s.dropped ==> Apply(s, a).dropped == s.dropped + multiset(batch))
  {
    RunKeeps(run, i);
    HeldIsReturnable(run[i], a);
    var s, batch := run[i], Batch(run[i], a);
    hide IsRun, Returnable, Items, Inv;
    if batch != [] {
      assert (s.dropped + multiset(batch))[batch[0]] > s.dropped[batch[0]];
    }
  }

  // ---- Order ----

  lemma InitIsOrdered(s: State)
    requires Init(s)
    ensures Ordered(s)
  {
  }

  lemma {:induction false} RunOrdered(run: seq<State>, i: nat)
    requires IsRun(run) && i < |run| && forall j :: 0 <= j <= i ==> |run[j].returned| <= 1
    ensures Ordered(run[i])
  {
    hide Inv, Apply, Enabled, Ordered;
    if i == 0 {
      InitIsOrdered(run[0]);
    } else {
      RunOrdered(run, i - 1);
      RunKeeps(run, i - 1);
      assert Next(run[i - 1], run[i]);
      var a :| Enabled(run[i - 1], a) && run[i] == Apply(run[i - 1], a);
      ApplyOrdered(run[i - 1], a);
    }
  }

  /**
   * The queue keeps the order of acceptance throughout a run if and only if the loop never puts back an input
   * while an earlier one of the same answer is in the queue again.
   */
  lemma OrderIsKept(run: seq<State>)
    requires IsRun(run)
    ensures (forall i :: 0 <= i < |run| ==> Increasing(run[i].queued)) <==> (forall i :: 0 <= i < |run| ==> |run[i].returned| <= 1)
  {
    if i :| 0 <= i < |run| && |run[i].returned| > 1 {
      FirstSecondReturn(run, i);
    } else {
      forall i | 0 <= i < |run| ensures Increasing(run[i].queued) {
        RunOrdered(run, i);
        QueueIncreases(run[i]);
      }
    }
  }

  lemma {:induction false} FirstSecondReturn(run: seq<State>, i: nat)
    requires IsRun(run) && i < |run| && |run[i].returned| > 1
    ensures exists j :: 0 <= j < |run| && !Increasing(run[j].queued)
  {
    hide Inv, Apply, Enabled, Increasing;
    if j :| 0 <= j < i && |run[j].returned| > 1 {
      FirstSecondReturn(run, j);
    } else {
      assert i > 0 by {
        assert Init(run[0]);
      }
      RunOrdered(run, i - 1);
      RunKeeps(run, i - 1);
      assert Next(run[i - 1], run[i]);
      var a :| Enabled(run[i - 1], a) && run[i] == Apply(run[i - 1], a);
      SecondReturnOvertakes(run[i - 1], a);
    }
  }

  // ---- A run that turns two inputs around ----

  ghost predicate EndsIn(run: seq<State>, s: State) {
    run != [] && IsRun(run) && run[|run| - 1] == s
  }

  lemma Extend(run: seq<State>, s: State, a: Action) returns (longer: seq<State>)
    requires EndsIn(run, s) && Enabled(s, a)
    ensures EndsIn(longer, Apply(s, a))
  {
    longer := run + [Apply(s, a)];
    assert forall i :: 0 <= i < |run| ==> longer[i] == run[i];
    hide Apply, Enabled, Init;
    assert Next(s, Apply(s, a));
  }

  lemma OneArrives(run: seq<State>, s: State, id: string, content: string) returns (longer: seq<State>)
    requires EndsIn(run, s) && IsInput(content) && |s.queued| < MAX_PENDING_MESSAGES
    requires id !in Ids(Items(s.accepted, s.queued)) && id !in s.inflight
    ensures EndsIn(longer, s.(accepted := s.accepted + [Item(id, content)], queued := s.queued + [|s.accepted|]))
  {
    TrimSpaceFixesTrimmed(content);
    hide IsRun, TrimSpace, Trimmed, Ids, Items;
    longer := Extend(run, s, Arrive(id, content));
  }

  /** Two inputs that arrive while the loop runs. */
  lemma TwoArrive() returns (run: seq<State>)
    ensures EndsIn(run, State([Item("b1", "one"), Item("b2", "two")], [0, 1], map[], Generating, [], [], [], [], multiset{}, multiset{}, multiset{}))
  {
    var s := State([], [], map[], Idle, [], [], [], [], multiset{}, multiset{}, multiset{});
    run := [s];
    run := Extend(run, s, Begin);
    hide IsRun;
    run := Extend(run, s.(phase := Consuming), Generate);
    run := OneArrives(run, s.(phase := Generating), "b1", "one");
    s := s.(phase := Generating, accepted := [Item("b1", "one")], queued := [0]);
    assert Items(s.accepted, s.queued) == [Item("b1", "one")];
    run := OneArrives(run, s, "b2", "two");
  }

  lemma BothTaken() returns (run: seq<State>)
    ensures EndsIn(run, State([Item("b1", "one"), Item("b2", "two")], [], map["b1" := Item("b1", "one"), "b2" := Item("b2", "two")],
                              Settling, [], [], [0, 1], [], multiset{}, multiset{}, multiset{}))
  {
    run := TwoArrive();
    var b1, b2 := Item("b1", "one"), Item("b2", "two");
    var s := State([b1, b2], [0, 1], map[], Generating, [], [], [], [], multiset{}, multiset{}, multiset{});
    hide IsRun;
    assert Items(s.accepted, [0, 1]) == [b1, b2] && [b1, b2][..1] == [b1];
    assert Flown(map[], [b1]) == map["b1" := b1];
    run := Extend(run, s, Take);
    s := s.(queued := [], loop := [0, 1], inflight := map["b1" := b1, "b2" := b2]);
    run := Extend(run, s, LoopAnswers);
  }

  /** The loop cannot acknowledge an input and puts it back. */
  lemma PutBack(run: seq<State>, s: State, t: nat) returns (longer: seq<State>)
    requires EndsIn(run, s) && s.phase == Settling && s.loop != [] && s.loop[0] == t && Fits(s, [t]) && At(s.accepted, t).id != ""
    ensures EndsIn(longer, s.(queued := [t] + s.queued, loop := s.loop[1..], returned := s.returned + [t],
                              inflight := s.inflight - {At(s.accepted, t).id}))
  {
    hide IsRun, At;
    longer := Extend(run, s, LoopAcknowledges(false));
    longer := Extend(longer, s.(phase := Returning), Return);
    assert Items(s.accepted, [t]) == [At(s.accepted, t)];
    assert Ids([At(s.accepted, t)]) == {At(s.accepted, t).id};
  }

  /** Two inputs are taken, the model answers, and neither can be acknowledged: they are queued again the wrong way round. */
  lemma RefusedInputsTurnAround() returns (run: seq<State>)
    ensures IsRun(run) && run[|run| - 1].queued == [1, 0] && !Increasing(run[|run| - 1].queued)
    ensures run[|run| - 1].phase == Settling && run[|run| - 1].loop == [] && run[|run| - 1].inflight == map[]
  {
    run := BothTaken();
    hide IsRun;
    var s := run[|run| - 1];
    run := PutBack(run, s, 0);
    s := run[|run| - 1];
    assert s.loop == [1] && s.queued == [0];
    run := PutBack(run, s, 1);
    assert run[|run| - 1].queued[0] > run[|run| - 1].queued[1];
  }
}
