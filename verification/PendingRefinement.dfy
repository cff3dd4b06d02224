/** The queue's methods take the steps of the transition system in PendingDelivery, so what holds in every run holds for it. */
module PendingRefinement {
  import opened Text
  import opened PendingInput
  import opened PendingDelivery

  /** The queue is as the state says. */
  ghost predicate Shows(s: State, messages: seq<Item>, inflight: map<string, Item>) {
    messages == Items(s.accepted, s.queued) && inflight == s.inflight
  }

  lemma ArrivalShows(s: State, id: string, content: string)
    requires Inv(s)
    ensures var s' := Apply(s, Arrive(id, content));
            Shows(s', Enqueued(Items(s.accepted, s.queued), s.inflight, id, content), s.inflight)
  {
    var messages, s' := Items(s.accepted, s.queued), Apply(s, Arrive(id, content));
    forall t | t in s.queued ensures t < |s.accepted| {
      LineIsOld(s, t);
    }
    hide Inv, Enters, TrimSpace;
    if Enters(messages, s.inflight, id, content) {
      assert Items(s'.accepted, s'.queued) == messages + [Item(id, TrimSpace(content))];
    }
  }

  method ArriveRefines(queue: Queue, id: string, content: string, ghost s: State) returns (ok: bool, ghost s': State)
    requires queue.Valid() && Inv(s) && Shows(s, queue.messages, queue.inflight)
    modifies queue
    ensures queue.Valid() && s' == Apply(s, Arrive(id, content)) && Inv(s') && Shows(s', queue.messages, queue.inflight)
  {
    ArrivalShows(s, id, content);
    ApplyKeeps(s, Arrive(id, content));
    hide Inv, Apply, Enqueued, Enters, TrimSpace, Items;
    s' := Apply(s, Arrive(id, content));
    ok := queue.Enqueue(id, content);
  }

  /** The turn or its loop takes everything. */
  method DrainRefines(queue: Queue, ghost a: Action, ghost s: State) returns (items: seq<Item>, ghost s': State)
    requires queue.Valid() && Inv(s) && Shows(s, queue.messages, queue.inflight) && (a == Drain || a == Take) && Enabled(s, a)
    modifies queue
    ensures queue.Valid() && s' == Apply(s, a) && Inv(s') && Shows(s', queue.messages, queue.inflight)
    ensures items == Items(s.accepted, s.queued)
  {
    ApplyKeeps(s, a);
    hide Inv, Flown;
    s' := Apply(s, a);
    items := queue.DrainIdentified();
  }

  lemma ReturnShows(s: State, a: Action)
    requires Inv(s) && Enabled(s, a) && (a.LoopFails? || a.Return? || a.Fail? || a.Finish?)
    ensures var items, messages := Items(s.accepted, Batch(s, a)), Items(s.accepted, s.queued);
            Shows(Apply(s, a), if items == [] || |items| + |messages| <= MAX_PENDING_MESSAGES then items + messages else messages,
                  s.inflight - Ids(items))
  {
    hide Inv, Ids;
    var batch := Batch(s, a);
    assert Items(s.accepted, batch + s.queued) == Items(s.accepted, batch) + Items(s.accepted, s.queued);
    assert [] + s.queued == s.queued;
  }

  /** A batch or a single input goes back to the front; `items` is what the turn or its loop holds and has to put back. */
  method RequeueRefines(queue: Queue, items: seq<Item>, ghost a: Action, ghost s: State) returns (ok: bool, ghost s': State)
    requires queue.Valid() && Inv(s) && Shows(s, queue.messages, queue.inflight)
    requires Enabled(s, a) && (a.LoopFails? || a.Return? || a.Fail? || a.Finish?) && items == Items(s.accepted, Batch(s, a))
    modifies queue
    ensures queue.Valid() && s' == Apply(s, a) && Inv(s') && Shows(s', queue.messages, queue.inflight)
    ensures ok <==> s'.dropped == s.dropped
  {
    ApplyKeeps(s, a);
    HeldIsReturnable(s, a);
    ReturnShows(s, a);
    DropsExactly(s, a);
    hide Inv, Apply, Items, Returnable, Ids, Enabled, Batch;
    s' := Apply(s, a);
    ok := queue.RequeueIdentified(items);
  }

  lemma DropsExactly(s: State, a: Action)
    requires Enabled(s, a) && (a.LoopFails? || a.Return? || a.Fail? || a.Finish?)
    ensures var batch := Batch(s, a);
            Apply(s, a).dropped == s.dropped <==> batch == [] || |batch| + |s.queued| <= MAX_PENDING_MESSAGES
    ensures |Items(s.accepted, Batch(s, a))| == |Batch(s, a)| && |Items(s.accepted, s.queued)| == |s.queued|
  {
    var batch := Batch(s, a);
    if batch != [] {
      assert multiset(batch)[batch[0]] > 0;
      assert (s.dropped + multiset(batch))[batch[0]] > s.dropped[batch[0]];
    }
  }

  /** One input is settled: `x` is the first that is left. */
  method AcknowledgeRefines(queue: Queue, x: Item, stored: bool, ghost a: Action, ghost s: State) returns (ok: bool, ghost s': State)
    requires queue.Valid() && Inv(s) && Shows(s, queue.messages, queue.inflight) && Enabled(s, a)
    requires || (a == LoopAcknowledges(stored) && x == At(s.accepted, s.loop[0]))
             || (a == Acknowledge(stored) && x == At(s.accepted, s.open[0]))
    modifies queue
    ensures queue.Valid() && s' == Apply(s, a) && Inv(s') && Shows(s', queue.messages, queue.inflight)
    ensures ok <==> x.id == "" || stored
  {
    ApplyKeeps(s, a);
    hide Inv, Items, At;
    s' := Apply(s, a);
    assert queue.inflight - {""} == queue.inflight;
    ok := queue.Acknowledge(x.id, Some(stored));
  }
}
