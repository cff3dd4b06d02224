/**
 * The queue of inputs waiting for a parent session, and the turn that consumes it. One session is
 * modelled; the queues of different sessions do not meet.
 */
module PendingInput {
  import opened Text

  const MAX_PENDING_MESSAGES := 8
  const MAX_PENDING_RUNES := 8000

  /** `id` is empty for an input nobody has to acknowledge. */
  datatype Item = Item(id: string, content: string)

  predicate IsInput(content: string) {
    content != "" && Trimmed(content) && |content| <= MAX_PENDING_RUNES
  }

  function Ids(items: seq<Item>): set<string> {
    set x | x in items && x.id != "" :: x.id
  }

  ghost predicate IdsDiffer(items: seq<Item>) {
    forall i, j :: 0 <= i < j < |items| && items[i].id != "" ==> items[i].id != items[j].id
  }

  ghost predicate AreInputs(items: seq<Item>) {
    forall x :: x in items ==> IsInput(x.content)
  }

  /** A new input for which there is room. */
  predicate Enters(messages: seq<Item>, inflight: map<string, Item>, id: string, content: string) {
    && IsInput(TrimSpace(content)) && |messages| < MAX_PENDING_MESSAGES
    && (id == "" || (id !in Ids(messages) && id !in inflight))
  }

  /** The very input that is queued or in flight under its id. */
  predicate Repeats(messages: seq<Item>, inflight: map<string, Item>, id: string, content: string) {
    && id != "" && IsInput(TrimSpace(content))
    && if id in Ids(messages) then Item(id, content) in messages else id in inflight && inflight[id] == Item(id, content)
  }

  function Enqueued(messages: seq<Item>, inflight: map<string, Item>, id: string, content: string): seq<Item> {
    if Enters(messages, inflight, id, content) then messages + [Item(id, TrimSpace(content))] else messages
  }

  /** The identified items whose acknowledgement fails. */
  function Refused(items: seq<Item>, failing: set<string>): seq<Item> {
    if items == [] then []
    else
      var last := items[|items| - 1];
      Refused(items[..|items| - 1], failing) + if last.id == "" || last.id !in failing then [] else [last]
  }

  class Queue {
    var messages: seq<Item>
    var inflight: map<string, Item>

    /** No input is queued twice or queued while it is being consumed. */
    ghost predicate Valid()
      reads this
    {
      && |messages| <= MAX_PENDING_MESSAGES && IdsDiffer(messages) && AreInputs(messages)
      && Ids(messages) !! inflight.Keys
      && forall id :: id in inflight ==> id != "" && inflight[id].id == id
    }

    constructor ()
      ensures Valid() && messages == [] && inflight == map[]
    {
      messages, inflight := [], map[];
    }

    method Find(id: string) returns (found: Option<Item>)
      ensures found.Some? <==> exists i :: 0 <= i < |messages| && messages[i].id == id
      ensures found.Some? ==> found.value in messages && found.value.id == id
    {
      var i := 0;
      while i < |messages|
        invariant 0 <= i <= |messages|
        invariant forall j :: 0 <= j < i ==> messages[j].id != id
      {
        if messages[i].id == id {
          return Some(messages[i]);
        }
        i := i + 1;
      }
      found := None;
    }

    /**
     * Appends an input that may enter. A repeated identified input is accepted without a second entry when it
     * is the very input that is queued or in flight; queued contents are trimmed, the repeated one is not.
     */
    method Enqueue(id: string, content: string) returns (ok: bool)
      requires Valid()
      modifies this`messages
      ensures Valid()
      ensures messages == Enqueued(old(messages), inflight, id, content)
      ensures messages == old(messages) || messages == old(messages) + [Item(id, TrimSpace(content))]
      ensures messages != old(messages) <==>
              && 0 < |TrimSpace(content)| <= 8000 && |old(messages)| < 8
              && (id == "" || (id !in inflight && forall x :: x in old(messages) ==> x.id != id))
      ensures ok <==> Enters(old(messages), inflight, id, content) || Repeats(old(messages), inflight, id, content)
      ensures ok <==>
              || messages != old(messages)
              || (id != "" && 0 < |TrimSpace(content)| <= 8000 && Item(id, content) in old(messages))
              || (id != "" && 0 < |TrimSpace(content)| <= 8000 && id in inflight && inflight[id] == Item(id, content))
    {
      var trimmed := TrimSpace(content);
      TrimSpaceFixesTrimmed(content);
      assert Trimmed(trimmed);
      hide TrimSpace, Trimmed;
      if trimmed == "" || |trimmed| > MAX_PENDING_RUNES {
        return false;
      }
      var item := Item(id, content);
      if id != "" {
        var existing := Find(id);
        if existing.Some? {
          IdsAreUnique(messages, existing.value);
          return existing.value == item;
        }
        if id in inflight {
          return inflight[id] == item;
        }
      }
      if |messages| >= MAX_PENDING_MESSAGES {
        return false;
      }
      IdsOfMore(messages, Item(id, trimmed));
      messages := messages + [item.(content := trimmed)];
      ok := true;
    }

    method DrainIdentified() returns (items: seq<Item>)
      requires Valid()
      modifies this
      ensures Valid() && items == old(messages) && messages == []
      ensures inflight == Flown(old(inflight), items)
    {
      items := messages;
      DrainedIsValid(inflight, items);
      messages := [];
      hide Ids, IdsDiffer, AreInputs;
      if |items| == 0 {
        return;
      }
      var i := 0;
      while i < |items|
        invariant 0 <= i <= |items|
        invariant messages == [] && inflight == Flown(old(inflight), items[..i])
      {
        assert items[..i + 1][..i] == items[..i];
        if items[i].id != "" {
          inflight := inflight[items[i].id := items[i]];
        }
        i := i + 1;
      }
      assert items[..i] == items;
    }

    /** Puts items back in front, in their order, unless there is no room for all of them. */
    method RequeueIdentified(items: seq<Item>) returns (ok: bool)
      requires Valid()
      modifies this
      ensures Returnable(items, old(messages), old(inflight)) ==>
        && (ok <==> items == [] || |items| + |old(messages)| <= MAX_PENDING_MESSAGES)
        && messages == (if ok then items + old(messages) else old(messages))
        && inflight == old(inflight) - Ids(items)
        && Valid()
    {
      if |items| == 0 {
        return true;
      }
      ghost var before := inflight;
      var current := messages;
      var restored;
      ok, restored := Restore(items);
      if !ok {
        return false;
      }
      if Returnable(items, current, before) {
        RequeuedFits(items, current, before);
      }
      if |restored| + |current| > MAX_PENDING_MESSAGES {
        return false;
      }
      messages := restored + current;
      ok := true;
    }

    /** Takes items out of flight; those that are queued already are left out, conflicting ones are an error. */
    method Restore(items: seq<Item>) returns (ok: bool, restored: seq<Item>)
      requires Valid()
      modifies this`inflight
      ensures Returnable(items, messages, old(inflight)) ==> ok && restored == items && inflight == old(inflight) - Ids(items)
    {
      ghost var before := inflight;
      var seen := Ids(messages);
      ok, restored := false, [];
      var i := 0;
      RestoredNone(items, messages, before);
      hide *;
      while i < |items|
        invariant 0 <= i <= |items|
        invariant Returnable(items, messages, before) ==> RestoredTo(items, messages, before, i, restored, seen, inflight)
      {
        if Returnable(items, messages, before) {
          RestoreStep(items, messages, before, i, restored, seen, inflight);
        }
        var item := items[i].(content := TrimSpace(items[i].content));
        if item.content == "" || |item.content| > MAX_PENDING_RUNES {
          return;
        }
        i := i + 1;
        if item.id != "" {
          if item.id in inflight && inflight[item.id] != item {
            return;
          }
          var existing := Find(item.id);
          if existing.Some? && existing.value != item {
            return;
          }
          inflight := inflight - {item.id};
          if existing.Some? || item.id in seen {
            continue;
          }
          seen := seen + {item.id};
        }
        restored := restored + [item];
      }
      if Returnable(items, messages, before) {
        RestoredAll(items, messages, before, restored, seen, inflight);
      }
      ok := true;
    }

    /** Acknowledges through the configured acknowledger, if there is one; only then does the message stop being in flight. */
    method Acknowledge(id: string, acknowledger: Option<bool>) returns (ok: bool)
      requires Valid()
      modifies this`inflight
      ensures Valid()
      ensures ok <==> id == "" || acknowledger != Some(false)
      ensures inflight == if acknowledger == Some(true) then old(inflight) - {id} else old(inflight)
    {
      if id == "" || acknowledger.None? {
        assert inflight - {""} == inflight;
        return true;
      }
      if !acknowledger.value {
        return false;
      }
      inflight := inflight - {id};
      ok := true;
    }
  }

  /** The in-flight inputs after a drain. */
  function Flown(inflight: map<string, Item>, items: seq<Item>): map<string, Item> {
    if items == [] then inflight
    else
      var last := items[|items| - 1];
      var front := Flown(inflight, items[..|items| - 1]);
      if last.id == "" then front else front[last.id := last]
  }

  lemma {:induction false} FlownIs(inflight: map<string, Item>, items: seq<Item>)
    ensures Flown(inflight, items).Keys == inflight.Keys + Ids(items)
    ensures forall id :: id in Ids(items) ==> Flown(inflight, items)[id] in items && Flown(inflight, items)[id].id == id
    ensures forall id :: id in inflight && id !in Ids(items) ==> Flown(inflight, items)[id] == inflight[id]
  {
    if items != [] {
      var front := items[..|items| - 1];
      FlownIs(inflight, front);
      IdsStep(items, |front|);
      assert items[..|front| + 1] == items;
      assert items == front + [items[|front|]];
      hide Ids;
    }
  }

  lemma DrainedIsValid(inflight: map<string, Item>, items: seq<Item>)
    requires forall id :: id in inflight ==> id != "" && inflight[id].id == id
    ensures IdsDiffer([]) && AreInputs([]) && Ids([]) == {}
    ensures forall id :: id in Flown(inflight, items) ==> id != "" && Flown(inflight, items)[id].id == id
  {
    FlownIs(inflight, items);
    hide Flown;
  }

  lemma IdsConcat(a: seq<Item>, b: seq<Item>)
    ensures Ids(a + b) == Ids(a) + Ids(b)
  {
  }

  lemma RequeuedFits(items: seq<Item>, messages: seq<Item>, inflight: map<string, Item>)
    requires Returnable(items, messages, inflight) && IdsDiffer(messages) && AreInputs(messages)
    ensures IdsDiffer(items + messages) && AreInputs(items + messages) && Ids(items + messages) == Ids(items) + Ids(messages)
  {
    IdsConcat(items, messages);
    forall i, j | 0 <= i < |items| && 0 <= j < |messages| && items[i].id != "" ensures items[i].id != messages[j].id {
      if messages[j].id != "" {
        assert messages[j].id in Ids(messages) && items[i].id in Ids(items);
      }
    }
    hide IsInput, Ids;
  }

  lemma IdsStep(items: seq<Item>, i: nat)
    requires i < |items|
    ensures Ids(items[..i + 1]) == Ids(items[..i]) + if items[i].id == "" then {} else {items[i].id}
  {
  }

  lemma IdsAreUnique(items: seq<Item>, x: Item)
    requires IdsDiffer(items) && x in items && x.id != ""
    ensures forall y :: y in items && y.id == x.id ==> y == x
  {
    var i :| 0 <= i < |items| && items[i] == x;
    forall y | y in items && y.id == x.id ensures y == x {
      var j :| 0 <= j < |items| && items[j] == y;
    }
  }

  lemma IdsOfMore(items: seq<Item>, item: Item)
    ensures Ids(items + [item]) == Ids(items) + if item.id == "" then {} else {item.id}
  {
  }

  /** Items that were drained and have not been enqueued anew, which being in flight prevents. */
  ghost predicate Returnable(items: seq<Item>, messages: seq<Item>, inflight: map<string, Item>) {
    && IdsDiffer(items) && AreInputs(items) && Ids(items) !! Ids(messages)
    && forall x :: x in items && x.id in inflight ==> inflight[x.id] == x
  }

  /** The first `i` items are restored. */
  ghost predicate RestoredTo(items: seq<Item>, messages: seq<Item>, before: map<string, Item>, i: nat,
                             restored: seq<Item>, seen: set<string>, inflight: map<string, Item>) {
    i <= |items| && restored == items[..i] && seen == Ids(messages) + Ids(items[..i]) && inflight == before - Ids(items[..i])
  }

  lemma RestoredNone(items: seq<Item>, messages: seq<Item>, before: map<string, Item>)
    ensures RestoredTo(items, messages, before, 0, [], Ids(messages), before)
  {
    assert items[..0] == [] && Ids(items[..0]) == {};
  }

  lemma RestoredAll(items: seq<Item>, messages: seq<Item>, before: map<string, Item>,
                    restored: seq<Item>, seen: set<string>, inflight: map<string, Item>)
    requires RestoredTo(items, messages, before, |items|, restored, seen, inflight)
    ensures restored == items && inflight == before - Ids(items)
  {
    assert items[..|items|] == items;
  }

  /** A returnable item is proper as it is, neither queued nor seen, and not in flight as another one. */
  lemma RestoreStep(items: seq<Item>, messages: seq<Item>, before: map<string, Item>, i: nat,
                    restored: seq<Item>, seen: set<string>, inflight: map<string, Item>)
    requires Returnable(items, messages, before) && RestoredTo(items, messages, before, i, restored, seen, inflight) && i < |items|
    ensures TrimSpace(items[i].content) == items[i].content && 0 < |items[i].content| <= MAX_PENDING_RUNES
    ensures items[i].id in inflight ==> inflight[items[i].id] == items[i]
    ensures items[i].id != "" ==> items[i].id !in seen && forall x :: x in messages ==> x.id != items[i].id
    ensures RestoredTo(items, messages, before, i + 1, restored + [items[i]], if items[i].id == "" then seen else seen + {items[i].id},
                       if items[i].id == "" then inflight else inflight - {items[i].id})
  {
    ReturnableAt(items, messages, before, i);
    IdsStep(items, i);
    TrimSpaceFixesTrimmed(items[i].content);
    assert forall x :: x in messages && x.id != "" ==> x.id in Ids(messages);
    hide TrimSpace, Trimmed, Returnable, Ids;
  }

  lemma ReturnableAt(items: seq<Item>, messages: seq<Item>, inflight: map<string, Item>, i: nat)
    requires i < |items|
    ensures Returnable(items, messages, inflight) ==>
      && IsInput(items[i].content)
      && (items[i].id != "" ==> items[i].id !in Ids(messages) && items[i].id !in Ids(items[..i]))
      && (items[i].id in inflight ==> inflight[items[i].id] == items[i])
  {
  }
}
