/**
 * `continuePendingStreamForSession`: one turn that consumes what is queued for a parent session, and the agent
 * loop inside it, which drains the same queue while the answer is generated. Whether appending to the session,
 * the model and the acknowledgements succeed is decided from outside.
 */
module ParentTurn {
  import opened Text
  import opened PendingInput

  datatype Exit = NothingPending | AppendFailed | GenerationFailed | Answered | NotAllAcknowledged

  /** `drained` is what the turn took from the queue, and `taken` what the agent loop took while it ran. */
  datatype Report = Report(exit: Exit, drained: seq<Item>, acknowledged: seq<Item>, taken: seq<Item>)

  /** What others queue until the loop comes to its mailbox, and whether it takes it. */
  datatype Round = Round(arrivals: seq<(string, string)>, drains: bool)

  /** The rounds of the loop, whether it ends with an answer, and whether the answer can be committed. */
  datatype Generation = Generation(rounds: seq<Round>, answers: bool, commits: bool)

  /** The queue, and what the loop has taken from it. */
  datatype Mail = Mail(messages: seq<Item>, inflight: map<string, Item>, taken: seq<Item>)

  /** The identified items whose acknowledgement succeeds. */
  function Accepted(items: seq<Item>, failing: set<string>): seq<Item> {
    if items == [] then []
    else
      var last := items[|items| - 1];
      Accepted(items[..|items| - 1], failing) + if last.id == "" || last.id in failing then [] else [last]
  }

  function EnqueuedAll(messages: seq<Item>, inflight: map<string, Item>, arrivals: seq<(string, string)>): seq<Item> {
    if arrivals == [] then messages
    else
      var last := arrivals[|arrivals| - 1];
      Enqueued(EnqueuedAll(messages, inflight, arrivals[..|arrivals| - 1]), inflight, last.0, last.1)
  }

  predicate Fits(owed: seq<Item>, arrived: seq<Item>) {
    owed == [] || |owed| + |arrived| <= MAX_PENDING_MESSAGES
  }

  function PutBack(owed: seq<Item>, arrived: seq<Item>): seq<Item> {
    if Fits(owed, arrived) then owed + arrived else arrived
  }

  /** The queue after a list of inputs was put back one by one. */
  function Returned(messages: seq<Item>, items: seq<Item>): seq<Item> {
    if items == [] then messages
    else PutBack([items[|items| - 1]], Returned(messages, items[..|items| - 1]))
  }

  function RoundDone(m: Mail, round: Round): Mail {
    var messages := EnqueuedAll(m.messages, m.inflight, round.arrivals);
    if round.drains then Mail([], Flown(m.inflight, messages), m.taken + messages) else m.(messages := messages)
  }

  function RoundsDone(m: Mail, rounds: seq<Round>): Mail {
    if rounds == [] then m else RoundDone(RoundsDone(m, rounds[..|rounds| - 1]), rounds[|rounds| - 1])
  }

  /** What is no longer in flight after acknowledging a list one by one and putting back the rest. */
  function Landed(items: seq<Item>, configured: bool, failing: set<string>): set<string> {
    Ids(Refused(items, failing)) + if configured then Ids(Accepted(items, failing)) else {}
  }

  /** What the loop has to put back: all it has taken, or what it could not acknowledge. */
  function LoopOwes(taken: seq<Item>, answers: bool, failing: set<string>): seq<Item> {
    if answers then Refused(taken, failing) else taken
  }

  /** The loop puts back everything at once when it fails, and refused inputs one by one when it answers. */
  function LoopDone(m: Mail, answers: bool, configured: bool, failing: set<string>): Mail {
    if answers then
      m.(messages := Returned(m.messages, Refused(m.taken, failing)), inflight := m.inflight - Landed(m.taken, configured, failing))
    else
      m.(messages := PutBack(m.taken, m.messages), inflight := m.inflight - Ids(m.taken))
  }

  method EnqueueAll(queue: Queue, arrivals: seq<(string, string)>)
    requires queue.Valid()
    modifies queue`messages
    ensures queue.Valid() && queue.messages == EnqueuedAll(old(queue.messages), queue.inflight, arrivals)
  {
    hide Enqueued, Queue.Valid;
    var i := 0;
    while i < |arrivals|
      invariant 0 <= i <= |arrivals|
      invariant queue.Valid() && queue.messages == EnqueuedAll(old(queue.messages), queue.inflight, arrivals[..i])
    {
      assert arrivals[..i + 1][..i] == arrivals[..i];
      var ok := queue.Enqueue(arrivals[i].0, arrivals[i].1);
      i := i + 1;
    }
    assert arrivals[..i] == arrivals;
  }

  /** Appends the drained inputs to the session until one cannot be appended. */
  method AppendAll(count: nat, appends: nat -> bool) returns (ok: bool)
    ensures ok <==> forall i :: 0 <= i < count ==> appends(i)
  {
    for i := 0 to count
      invariant forall j :: 0 <= j < i ==> appends(j)
    {
      if !appends(i) {
        return false;
      }
    }
    ok := true;
  }

  /** One round: others queue inputs, and the loop drains the queue if its phase allows it. */
  method TakeOne(queue: Queue, round: Round, taken: seq<Item>, ghost outer: seq<Item>) returns (more: seq<Item>)
    requires queue.Valid() && Flies(outer + taken, queue.inflight)
    modifies queue
    ensures queue.Valid() && Flies(outer + more, queue.inflight)
    ensures Mail(queue.messages, queue.inflight, more) == RoundDone(Mail(old(queue.messages), old(queue.inflight), taken), round)
    ensures if round.drains then queue.messages == [] && taken + old(queue.messages) <= more
            else more == taken && old(queue.messages) <= queue.messages
  {
    EnqueuedBehind(queue.messages, queue.inflight, round.arrivals);
    hide Flown, EnqueuedAll, Flies;
    EnqueueAll(queue, round.arrivals);
    more := taken;
    if round.drains {
      FliesMore(outer + taken, queue.inflight, queue.messages);
      var items := queue.DrainIdentified();
      assert outer + taken + items == outer + (taken + items);
      more := taken + items;
    }
  }

  lemma {:induction false} EnqueuedBehind(messages: seq<Item>, inflight: map<string, Item>, arrivals: seq<(string, string)>)
    ensures messages <= EnqueuedAll(messages, inflight, arrivals)
  {
    if arrivals != [] {
      EnqueuedBehind(messages, inflight, arrivals[..|arrivals| - 1]);
    }
  }

  lemma RoundsStep(m: Mail, rounds: seq<Round>, i: nat)
    requires i < |rounds|
    ensures RoundsDone(m, rounds[..i + 1]) == RoundDone(RoundsDone(m, rounds[..i]), rounds[i])
  {
    assert rounds[..i + 1][..i] == rounds[..i];
  }

  /** The loop took nothing in rounds that did not let it, and everything in one that did. */
  ghost predicate TookWhenAllowed(first: seq<Item>, rounds: seq<Round>, taken: seq<Item>, messages: seq<Item>) {
    && (first <= taken || (taken == [] && first <= messages))
    && ((forall j :: 0 <= j < |rounds| ==> !rounds[j].drains) ==> taken == [] && first <= messages)
    && (rounds != [] && rounds[|rounds| - 1].drains ==> messages == [] && first <= taken)
  }

  lemma NothingTook(start: Mail)
    ensures RoundsDone(start, []) == start && TookWhenAllowed(start.messages, [], [], start.messages)
  {
  }

  lemma OneMoreTook(first: seq<Item>, rounds: seq<Round>, i: nat, taken: seq<Item>, messages: seq<Item>, taken': seq<Item>, messages': seq<Item>)
    requires i < |rounds| && TookWhenAllowed(first, rounds[..i], taken, messages)
    requires if rounds[i].drains then messages' == [] && taken + messages <= taken' else taken' == taken && messages <= messages'
    ensures TookWhenAllowed(first, rounds[..i + 1], taken', messages')
  {
    assert forall j :: 0 <= j < i ==> rounds[..i + 1][j] == rounds[..i][j];
    assert taken == [] ==> taken + messages == messages;
  }

  lemma TookMeans(first: seq<Item>, rounds: seq<Round>, taken: seq<Item>, messages: seq<Item>)
    requires TookWhenAllowed(first, rounds, taken, messages)
    ensures (forall i :: 0 <= i < |rounds| ==> !rounds[i].drains) ==> taken == [] && first <= messages
    ensures rounds != [] && rounds[|rounds| - 1].drains ==> messages == [] && first <= taken
  {
  }

  /** The rounds of the loop. `outer` is what the turn around it holds. */
  method TakeAll(queue: Queue, rounds: seq<Round>, ghost outer: seq<Item>) returns (taken: seq<Item>)
    requires queue.Valid() && Flies(outer, queue.inflight)
    modifies queue
    ensures queue.Valid() && Flies(outer + taken, queue.inflight)
    ensures Mail(queue.messages, queue.inflight, taken) == RoundsDone(Mail(old(queue.messages), old(queue.inflight), []), rounds)
    ensures (forall i :: 0 <= i < |rounds| ==> !rounds[i].drains) ==> taken == [] && old(queue.messages) <= queue.messages
    ensures rounds != [] && rounds[|rounds| - 1].drains ==> queue.messages == [] && old(queue.messages) <= taken
  {
    hide *;
    taken := [];
    var i := 0;
    assert outer + [] == outer && rounds[..0] == [];
    ghost var start := Mail(queue.messages, queue.inflight, []);
    NothingTook(start);
    while i < |rounds|
      invariant 0 <= i <= |rounds|
      invariant queue.Valid() && Flies(outer + taken, queue.inflight)
      invariant Mail(queue.messages, queue.inflight, taken) == RoundsDone(start, rounds[..i])
      invariant TookWhenAllowed(start.messages, rounds[..i], taken, queue.messages)
    {
      ghost var before, had := queue.messages, taken;
      RoundsStep(start, rounds, i);
      taken := TakeOne(queue, rounds[i], taken, outer);
      OneMoreTook(start.messages, rounds, i, had, before, taken, queue.messages);
      i := i + 1;
    }
    assert rounds[..i] == rounds;
    TookMeans(start.messages, rounds, taken, queue.messages);
  }

  /** Acknowledges one input the loop has taken; if that fails, it goes back to the front of the queue at once. */
  method SettleOne(queue: Queue, x: Item, configured: bool, failing: set<string>) returns (ok: bool)
    requires queue.Valid() && (configured || failing == {}) && Returnable([x], queue.messages, queue.inflight)
    modifies queue
    ensures queue.Valid() && (ok <==> x.id != "" && x.id !in failing)
    ensures queue.messages == if x.id == "" || ok then old(queue.messages) else PutBack([x], old(queue.messages))
    ensures queue.inflight == old(queue.inflight) - Left(x, configured, failing)
  {
    ok := false;
    assert queue.inflight - {} == queue.inflight;
    assert Ids([x]) == if x.id == "" then {} else {x.id};
    hide Returnable, Queue.Valid, Ids;
    if x.id != "" {
      ok := queue.Acknowledge(x.id, if configured then Some(x.id !in failing) else None);
      if !ok {
        var fits := queue.RequeueIdentified([x]);
      }
    }
  }

  /** `acknowledgePendingInput`. */
  method SettleAll(queue: Queue, taken: seq<Item>, configured: bool, failing: set<string>, ghost outer: seq<Item>)
    returns (acknowledged: seq<Item>)
    requires queue.Valid() && (configured || failing == {}) && Flies(outer + taken, queue.inflight)
    modifies queue
    ensures queue.Valid() && Flies(outer, queue.inflight) && acknowledged == Accepted(taken, failing)
    ensures queue.messages == Returned(old(queue.messages), Refused(taken, failing))
    ensures queue.inflight == old(queue.inflight) - Landed(taken, configured, failing)
  {
    acknowledged := [];
    var i := 0;
    ghost var start := Mail(queue.messages, queue.inflight, taken);
    SettledNone(start, configured, failing);
    assert taken[0..] == taken;
    hide *;
    while i < |taken|
      invariant 0 <= i <= |taken|
      invariant queue.Valid() && Flies(outer + taken[i..], queue.inflight)
      invariant SettledTo(start, Mail(queue.messages, queue.inflight, taken), acknowledged, i, configured, failing)
    {
      ghost var before := Mail(queue.messages, queue.inflight, taken);
      ValidApart(queue);
      SettleStep(queue.messages, queue.inflight, outer, taken, i, configured, failing);
      var ok := SettleOne(queue, taken[i], configured, failing);
      SettledOne(start, before, acknowledged, i, configured, failing, Mail(queue.messages, queue.inflight, taken), ok);
      if ok {
        acknowledged := acknowledged + [taken[i]];
      }
      i := i + 1;
    }
    assert outer + taken[i..] == outer;
    SettledEnd(start, Mail(queue.messages, queue.inflight, taken), acknowledged, configured, failing);
  }

  /**
   * `AgentLoopService.Run`, as far as it touches the queue. Every identified input it took is acknowledged or
   * queued again exactly when what it has to put back fits next to what is queued when its rounds are over.
   */
  method Generate(queue: Queue, g: Generation, configured: bool, failing: set<string>, ghost outer: seq<Item>)
    returns (ok: bool, taken: seq<Item>, acknowledged: seq<Item>)
    requires queue.Valid() && (configured || failing == {}) && Flies(outer, queue.inflight)
    modifies queue
    ensures queue.Valid() && Flies(outer, queue.inflight) && (ok <==> g.answers && g.commits)
    ensures var m := RoundsDone(Mail(old(queue.messages), old(queue.inflight), []), g.rounds);
            && Mail(queue.messages, queue.inflight, taken) == LoopDone(m, g.answers, configured, failing)
            && acknowledged == (if g.answers then Accepted(taken, failing) else [])
            && ((forall x :: x in taken && x.id != "" ==> x in acknowledged || x in queue.messages) <==>
                Fits(LoopOwes(taken, g.answers, failing), m.messages) || Ids(LoopOwes(taken, g.answers, failing)) == {})
    ensures !g.answers ==> acknowledged == [] && Stands(taken, queue.messages)
    ensures g.answers ==> forall x :: x in acknowledged <==> x in taken && x.id != "" && x.id !in failing
    ensures !g.answers || configured ==> forall x :: x in taken ==> x.id !in queue.inflight
  {
    hide Flies, Landed, Accepted, Refused, Returned, Returnable, Queue.Valid, Apart, RoundsDone, Fits, PutBack, Ids, LoopOwes;
    taken := TakeAll(queue, g.rounds, outer);
    ValidApart(queue);
    LoopLosesNothing(outer, taken, g.answers, failing, queue.messages, queue.inflight);
    acknowledged, ok := [], g.answers && g.commits;
    RefusedAndAccepted(taken, failing);
    PutBackStands(taken, queue.messages);
    ghost var was := queue.inflight;
    if g.answers {
      acknowledged := SettleAll(queue, taken, configured, failing, outer);
    } else {
      Release(queue, outer, taken);
    }
    ValidApart(queue);
    NobodyFlies(taken, queue.messages, was, queue.inflight, g.answers, configured, failing);
  }

  /** What the loop is done with is no longer in flight. */
  lemma NobodyFlies(
      taken: seq<Item>, messages: seq<Item>, was: map<string, Item>, inflight: map<string, Item>,
      answers: bool, configured: bool, failing: set<string>)
    requires Apart(messages, inflight) && inflight == was - if answers then Landed(taken, configured, failing) else Ids(taken)
    ensures !answers || configured ==> forall x :: x in taken ==> x.id !in inflight
  {
    RefusedAndAccepted(taken, failing);
  }

  /** `releasePendingInput` for all the loop has taken. */
  method Release(queue: Queue, ghost outer: seq<Item>, taken: seq<Item>)
    requires queue.Valid() && Flies(outer + taken, queue.inflight)
    modifies queue
    ensures queue.Valid() && Flies(outer, queue.inflight)
    ensures queue.messages == PutBack(taken, old(queue.messages)) && queue.inflight == old(queue.inflight) - Ids(taken)
  {
    FliesPart(outer, taken, queue.inflight);
    ValidApart(queue);
    assert IdsDiffer(taken);
    FliesReturns(taken, taken, queue.messages, queue.inflight);
    assert outer + taken + [] == outer + taken && outer + [] == outer;
    hide Flies, Ids, Returnable, Queue.Valid;
    FliesLess(outer, taken, [], queue.inflight, Ids(taken));
    assert [] + queue.messages == queue.messages;
    var ok := queue.RequeueIdentified(taken);
  }

  /** Every drained input can be appended to the session. */
  predicate Appends(drained: seq<Item>, appends: nat -> bool) {
    forall i :: 0 <= i < |drained| ==> appends(i)
  }

  predicate Succeeds(drained: seq<Item>, appends: nat -> bool, g: Generation) {
    Appends(drained, appends) && g.answers && g.commits
  }

  /** What the turn has to put back. */
  function Owed(drained: seq<Item>, appends: nat -> bool, g: Generation, failing: set<string>): seq<Item> {
    if Succeeds(drained, appends, g) then Refused(drained, failing) else drained
  }

  /** What of the turn's own inputs is no longer in flight when it has ended. */
  function TurnLanded(drained: seq<Item>, appends: nat -> bool, g: Generation, configured: bool, failing: set<string>): set<string> {
    if Succeeds(drained, appends, g) then Landed(drained, configured, failing) else Ids(drained)
  }

  /** The queue at the moment the turn puts back what it has to: after the loop, if it came to that. */
  function Found(m: Mail, drained: seq<Item>, appends: nat -> bool, g: Generation, configured: bool, failing: set<string>): Mail {
    if Appends(drained, appends) then LoopDone(RoundsDone(m, g.rounds), g.answers, configured, failing) else m
  }

  /** The queue after the turn drained it and others added `arrivals`. */
  function Begun(drained: seq<Item>, inflight: map<string, Item>, arrivals: seq<(string, string)>): Mail {
    Mail(EnqueuedAll([], Flown(inflight, drained), arrivals), Flown(inflight, drained), [])
  }

  /**
   * `arrivals` are inputs that others queue before the answer is generated. `appends` says which of the drained
   * inputs can be appended to the session, `failing` whose acknowledgement fails. Every identified input that was
   * drained is acknowledged or queued again exactly when what has to be queued again fits next to what is queued
   * at that moment.
   */
  method ContinuePending(queue: Queue, arrivals: seq<(string, string)>, appends: nat -> bool, g: Generation,
                         configured: bool, failing: set<string>) returns (r: Report)
    requires queue.Valid() && (configured || failing == {})
    modifies queue
    ensures queue.Valid() && r.drained == old(queue.messages)
    ensures r.exit == NothingPending <==> r.drained == []
    ensures r.drained == [] ==> queue.messages == [] && queue.inflight == old(queue.inflight)
    ensures r.exit == AppendFailed <==> !Appends(r.drained, appends)
    ensures r.exit in {Answered, NotAllAcknowledged} <==> r.drained != [] && Succeeds(r.drained, appends, g)
    ensures r.exit == NotAllAcknowledged <==> Succeeds(r.drained, appends, g) && Refused(r.drained, failing) != []
    ensures r.acknowledged == if Succeeds(r.drained, appends, g) then Accepted(r.drained, failing) else []
    ensures r.drained != [] ==>
      var owed := Owed(r.drained, appends, g, failing);
      var found := Found(Begun(r.drained, old(queue.inflight), arrivals), r.drained, appends, g, configured, failing);
      && r.taken == found.taken && queue.messages == PutBack(owed, found.messages)
      && queue.inflight == found.inflight - TurnLanded(r.drained, appends, g, configured, failing)
      && ((forall x :: x in r.drained && x.id != "" ==> x in r.acknowledged || x in queue.messages) <==>
          Fits(owed, found.messages) || Ids(owed) == {})
    ensures KeepsItsWord(r, appends, g, failing, queue.messages)
  {
    ghost var before := queue.inflight;
    DrainedFlies(queue);
    NothingSaid(appends, g, failing);
    hide *;
    var drained := queue.DrainIdentified();
    r := Report(NothingPending, drained, [], []);
    if |drained| == 0 {
      return;
    }
    EnqueueAll(queue, arrivals);
    r := Deliver(queue, drained, appends, g, configured, failing);
    TurnKeepsItsWord(r, appends, g, failing, queue.messages,
                     Found(Begun(drained, before, arrivals), drained, appends, g, configured, failing).messages);
  }

  /**
   * What a turn promises, in the terms of what happens around it: only one whose answer is committed acknowledges
   * anything, and any other puts its inputs back in front, unless the queue is too full for them.
   */
  ghost predicate KeepsItsWord(r: Report, appends: nat -> bool, g: Generation, failing: set<string>, messages: seq<Item>) {
    var appended := forall i :: 0 <= i < |r.drained| ==> appends(i);
    && (r.exit == NothingPending <==> r.drained == [])
    && (r.exit == AppendFailed <==> !appended)
    && (r.exit == GenerationFailed <==> r.drained != [] && appended && !(g.answers && g.commits))
    && (r.exit == NotAllAcknowledged <==> appended && g.answers && g.commits && exists x :: x in r.drained && x.id != "" && x.id in failing)
    && (r.acknowledged != [] ==> appended && g.answers && g.commits)
    && (appended && g.answers && g.commits ==> forall x :: x in r.acknowledged <==> x in r.drained && x.id != "" && x.id !in failing)
    && (r.exit == AppendFailed || r.exit == GenerationFailed ==> Stands(r.drained, messages))
    && (r.exit == NotAllAcknowledged ==> Stands(Refused(r.drained, failing), messages))
  }

  /** The items are in front, in their order, or there was no room for them. */
  predicate Stands(items: seq<Item>, messages: seq<Item>) {
    items <= messages || |items| + |messages| > MAX_PENDING_MESSAGES
  }

  lemma NothingSaid(appends: nat -> bool, g: Generation, failing: set<string>)
    ensures KeepsItsWord(Report(NothingPending, [], [], []), appends, g, failing, [])
    ensures Appends([], appends) && Refused([], failing) == [] && Accepted([], failing) == []
  {
  }

  lemma DrainedFlies(queue: Queue)
    requires queue.Valid()
    ensures Flies(queue.messages, Flown(queue.inflight, queue.messages))
  {
    ValidApart(queue);
    assert IdsDiffer(queue.messages) && AreInputs(queue.messages);
    hide Flown, IdsDiffer, AreInputs, Apart, Queue.Valid;
    FliesMore([], queue.inflight, queue.messages);
    assert [] + queue.messages == queue.messages;
  }

  lemma TurnKeepsItsWord(r: Report, appends: nat -> bool, g: Generation, failing: set<string>, messages: seq<Item>, found: seq<Item>)
    requires r.exit != NothingPending && r.drained != [] && (r.exit == AppendFailed <==> !Appends(r.drained, appends))
    requires r.exit == Answered || r.exit == NotAllAcknowledged <==> Succeeds(r.drained, appends, g)
    requires r.exit == NotAllAcknowledged <==> Succeeds(r.drained, appends, g) && Refused(r.drained, failing) != []
    requires r.acknowledged == if Succeeds(r.drained, appends, g) then Accepted(r.drained, failing) else []
    requires messages == PutBack(Owed(r.drained, appends, g, failing), found)
    ensures KeepsItsWord(r, appends, g, failing, messages)
  {
    TurnMeans(r.drained, appends, g, failing);
    PutBackStands(Owed(r.drained, appends, g, failing), found);
    hide Appends, Succeeds, Owed, Refused, Accepted, PutBack, Stands;
  }

  lemma TurnMeans(drained: seq<Item>, appends: nat -> bool, g: Generation, failing: set<string>)
    ensures Appends(drained, appends) <==> forall i :: 0 <= i < |drained| ==> appends(i)
    ensures Succeeds(drained, appends, g) <==> (forall i :: 0 <= i < |drained| ==> appends(i)) && g.answers && g.commits
    ensures Owed(drained, appends, g, failing) == if Succeeds(drained, appends, g) then Refused(drained, failing) else drained
    ensures forall x :: x in Accepted(drained, failing) <==> x in drained && x.id != "" && x.id !in failing
    ensures Refused(drained, failing) != [] <==> exists x :: x in drained && x.id != "" && x.id in failing
  {
    RefusedAndAccepted(drained, failing);
    hide Refused, Accepted;
    if Refused(drained, failing) != [] {
      assert Refused(drained, failing)[0] in Refused(drained, failing);
    }
  }

  lemma PutBackStands(owed: seq<Item>, waiting: seq<Item>)
    ensures Stands(owed, PutBack(owed, waiting))
  {
  }

  /** The turn itself, and the ways out of it. */
  method Deliver(queue: Queue, drained: seq<Item>, appends: nat -> bool, g: Generation, configured: bool, failing: set<string>)
    returns (r: Report)
    requires queue.Valid() && (configured || failing == {}) && drained != [] && Flies(drained, queue.inflight)
    modifies queue
    ensures queue.Valid() && r.drained == drained && r.exit != NothingPending
    ensures r.exit == AppendFailed <==> !Appends(drained, appends)
    ensures r.exit in {Answered, NotAllAcknowledged} <==> Succeeds(drained, appends, g)
    ensures r.exit == NotAllAcknowledged <==> Succeeds(drained, appends, g) && Refused(drained, failing) != []
    ensures r.acknowledged == if Succeeds(drained, appends, g) then Accepted(drained, failing) else []
    ensures
      var owed := Owed(drained, appends, g, failing);
      var found := Found(Mail(old(queue.messages), old(queue.inflight), []), drained, appends, g, configured, failing);
      && r.taken == found.taken && queue.messages == PutBack(owed, found.messages)
      && queue.inflight == found.inflight - TurnLanded(drained, appends, g, configured, failing)
      && ((forall x :: x in drained && x.id != "" ==> x in r.acknowledged || x in queue.messages) <==>
          Fits(owed, found.messages) || Ids(owed) == {})
  {
    hide Accepted, Refused, Returnable, Queue.Valid, Flies, LoopDone, RoundsDone, Landed, Fits, Ids, PutBack, LoopOwes;
    var appended := AppendAll(|drained|, appends);
    if !appended {
      r := Report(AppendFailed, drained, [], []);
      PutBackAll(queue, drained, failing);
      return;
    }
    var ok, taken, settled := Generate(queue, g, configured, failing, drained);
    if !ok {
      r := Report(GenerationFailed, drained, [], taken);
      PutBackAll(queue, drained, failing);
      return;
    }
    r := AcknowledgeTurn(queue, drained, taken, configured, failing);
  }

  /** The way out of a turn that failed. */
  method PutBackAll(queue: Queue, drained: seq<Item>, ghost failing: set<string>)
    requires queue.Valid() && Flies(drained, queue.inflight)
    modifies queue
    ensures queue.Valid() && queue.messages == PutBack(drained, old(queue.messages)) && queue.inflight == old(queue.inflight) - Ids(drained)
    ensures (forall x :: x in drained && x.id != "" ==> x in [] || x in queue.messages) <==>
            Fits(drained, old(queue.messages)) || Ids(drained) == {}
  {
    FliesReturns(drained, drained, queue.messages, queue.inflight);
    NothingIsLost(drained, [], drained, queue.messages);
    assert [] + queue.messages == queue.messages;
    hide Ids, Returnable, Flies, Queue.Valid;
    var ok := queue.RequeueIdentified(drained);
  }

  /** The way out of a turn that succeeded. */
  method AcknowledgeTurn(queue: Queue, drained: seq<Item>, taken: seq<Item>, configured: bool, failing: set<string>) returns (r: Report)
    requires queue.Valid() && (configured || failing == {}) && Flies(drained, queue.inflight)
    modifies queue
    ensures queue.Valid() && r.drained == drained && r.taken == taken && r.acknowledged == Accepted(drained, failing)
    ensures r.exit == if Refused(drained, failing) == [] then Answered else NotAllAcknowledged
    ensures queue.messages == PutBack(Refused(drained, failing), old(queue.messages))
    ensures queue.inflight == old(queue.inflight) - Landed(drained, configured, failing)
    ensures (forall x :: x in drained && x.id != "" ==> x in r.acknowledged || x in queue.messages) <==>
            Fits(Refused(drained, failing), old(queue.messages)) || Ids(Refused(drained, failing)) == {}
  {
    hide *;
    ValidApart(queue);
    RefusedLoseNothing(drained, failing, queue.messages, queue.inflight);
    LandedInTwo(queue.inflight, drained, configured, failing);
    ghost var messages, inflight := queue.messages, queue.inflight;
    var acknowledged, refused := AcknowledgeAll(queue, drained, configured, failing);
    RefusedReturn(drained, failing, messages, inflight, queue.inflight);
    r := Report(Answered, drained, acknowledged, taken);
    PutBackNothing(messages);
    if |refused| > 0 {
      PutBackIs(refused, messages);
      var ok := queue.RequeueIdentified(refused);
      r := r.(exit := NotAllAcknowledged);
    }
  }

  /** Acknowledges the identified items one by one and collects those that could not be. */
  method AcknowledgeAll(queue: Queue, items: seq<Item>, configured: bool, failing: set<string>)
    returns (acknowledged: seq<Item>, refused: seq<Item>)
    requires queue.Valid() && (configured || failing == {})
    modifies queue`inflight
    ensures queue.Valid() && queue.inflight == old(queue.inflight) - if configured then Ids(acknowledged) else {}
    ensures acknowledged == Accepted(items, failing) && refused == Refused(items, failing)
  {
    acknowledged, refused := [], [];
    var i := 0;
    assert items[..0] == [] && Ids([]) == {} && queue.inflight - {} == queue.inflight;
    hide Accepted, Refused, Queue.Valid, Ids;
    while i < |items|
      invariant 0 <= i <= |items|
      invariant queue.Valid() && queue.inflight == old(queue.inflight) - if configured then Ids(acknowledged) else {}
      invariant acknowledged == Accepted(items[..i], failing) && refused == Refused(items[..i], failing)
    {
      AcceptedStep(items, i, failing);
      IdsOfMore(acknowledged, items[i]);
      MinusTwice(old(queue.inflight), Ids(acknowledged), {items[i].id});
      if items[i].id != "" {
        var ok := queue.Acknowledge(items[i].id, if configured then Some(items[i].id !in failing) else None);
        if ok {
          acknowledged := acknowledged + [items[i]];
        } else {
          refused := refused + [items[i]];
        }
      }
      i := i + 1;
    }
    assert items[..i] == items;
  }

  // ---- What flies ----

  /** Held inputs are in flight under their ids. */
  ghost predicate Flies(items: seq<Item>, inflight: map<string, Item>) {
    && IdsDiffer(items) && AreInputs(items)
    && forall x :: x in items && x.id != "" ==> x.id in inflight && inflight[x.id] == x
  }

  ghost predicate Apart(messages: seq<Item>, inflight: map<string, Item>) {
    Ids(messages) !! inflight.Keys && "" !in inflight
  }

  lemma ValidApart(queue: Queue)
    requires queue.Valid()
    ensures Apart(queue.messages, queue.inflight) && |queue.messages| <= MAX_PENDING_MESSAGES
  {
    hide Ids;
  }

  lemma FliesMore(held: seq<Item>, inflight: map<string, Item>, items: seq<Item>)
    requires Flies(held, inflight) && IdsDiffer(items) && AreInputs(items) && Apart(items, inflight)
    ensures Flies(held + items, Flown(inflight, items))
  {
    FlownIs(inflight, items);
    hide Flown, IsInput;
    forall x | x in held + items && x.id != "" ensures x.id in Flown(inflight, items) && Flown(inflight, items)[x.id] == x {
      if x in items {
        assert x.id in Ids(items);
        IdsAreUnique(items, x);
      }
    }
    forall i, j | 0 <= i < |held| && 0 <= j < |items| && held[i].id != "" ensures held[i].id != items[j].id {
      assert held[i] in held && items[j] in items && (items[j].id != "" ==> items[j].id in Ids(items));
    }
  }

  /** What is in flight cannot have been queued again, so it can be put back. */
  lemma FliesReturns(held: seq<Item>, part: seq<Item>, messages: seq<Item>, inflight: map<string, Item>)
    requires Flies(held, inflight) && Apart(messages, inflight)
    requires IdsDiffer(part) && forall x :: x in part ==> x in held
    ensures Returnable(part, messages, inflight)
  {
    hide IsInput;
  }

  lemma FliesLess(a: seq<Item>, gone: seq<Item>, b: seq<Item>, inflight: map<string, Item>, left: set<string>)
    requires Flies(a + gone + b, inflight) && left <= Ids(gone)
    ensures Flies(a + b, inflight - left)
  {
    var all, rest := a + gone + b, a + b;
    assert forall i :: 0 <= i < |rest| ==> rest[i] == all[if i < |a| then i else i + |gone|];
    hide IsInput;
    forall x | x in rest && x.id != "" ensures x.id !in Ids(gone) {
      Apart3(a, gone, b, x);
    }
    forall i, j | 0 <= i < j < |rest| && rest[i].id != "" ensures rest[i].id != rest[j].id {
    }
  }

  lemma Apart3(a: seq<Item>, gone: seq<Item>, b: seq<Item>, x: Item)
    requires IdsDiffer(a + gone + b) && x in a + b && x.id != ""
    ensures x.id !in Ids(gone)
  {
    var all := a + gone + b;
    var i :| 0 <= i < |a + b| && (a + b)[i] == x;
    var k := if i < |a| then i else i + |gone|;
    forall y | y in gone ensures y.id != x.id {
      var j :| 0 <= j < |gone| && gone[j] == y;
      assert all[k] == x && all[|a| + j] == y;
    }
  }

  lemma PutBackNothing(messages: seq<Item>)
    ensures PutBack([], messages) == messages && Ids([]) == {}
  {
  }

  lemma PutBackIs(items: seq<Item>, messages: seq<Item>)
    requires items != []
    ensures PutBack(items, messages) == if |items| + |messages| <= MAX_PENDING_MESSAGES then items + messages else messages
  {
  }

  /** Acknowledged inputs leave first, and the refused ones when they are put back. */
  lemma LandedInTwo(inflight: map<string, Item>, items: seq<Item>, configured: bool, failing: set<string>)
    ensures
      var first := inflight - if configured then Ids(Accepted(items, failing)) else {};
      && IsPartOf(first, inflight)
      && first - Ids(Refused(items, failing)) == inflight - Landed(items, configured, failing)
  {
    hide Ids, Accepted, Refused;
  }

  lemma RefusedReturn(drained: seq<Item>, failing: set<string>, messages: seq<Item>, before: map<string, Item>, inflight: map<string, Item>)
    requires Flies(drained, before) && Apart(messages, before) && IsPartOf(inflight, before)
    ensures Returnable(Refused(drained, failing), messages, inflight)
  {
    FliesReturns(drained, drained, messages, before);
    hide *;
    RefusedReturns(drained, failing, messages, before, inflight);
  }

  // ---- What is lost ----

  lemma NothingIsLost(drained: seq<Item>, acknowledged: seq<Item>, owed: seq<Item>, waiting: seq<Item>)
    requires Ids(drained) !! Ids(waiting) && forall x :: x in owed ==> x in drained
    requires forall x :: x in drained && x.id != "" ==> (x in acknowledged <==> x !in owed)
    ensures (forall x :: x in drained && x.id != "" ==> x in acknowledged || x in PutBack(owed, waiting)) <==>
            Fits(owed, waiting) || Ids(owed) == {}
  {
    if !Fits(owed, waiting) && Ids(owed) != {} {
      var id :| id in Ids(owed);
      var x :| x in owed && x.id == id;
      assert x in drained && x.id in Ids(drained);
      assert x in waiting ==> x.id in Ids(waiting);
      assert x !in PutBack(owed, waiting) && x !in acknowledged;
    } else {
      forall x | x in owed && x.id != "" ensures x in PutBack(owed, waiting) {
        assert x.id in Ids(owed);
      }
    }
  }

  lemma FliesApart(held: seq<Item>, inflight: map<string, Item>, part: seq<Item>, messages: seq<Item>)
    requires Flies(held, inflight) && Apart(messages, inflight) && forall x :: x in part ==> x in held
    ensures Ids(part) !! Ids(messages)
  {
    hide IsInput;
  }

  lemma RefusedLoseNothing(drained: seq<Item>, failing: set<string>, messages: seq<Item>, inflight: map<string, Item>)
    requires Flies(drained, inflight) && Apart(messages, inflight)
    ensures (forall x :: x in drained && x.id != "" ==> x in Accepted(drained, failing) || x in PutBack(Refused(drained, failing), messages)) <==>
            Fits(Refused(drained, failing), messages) || Ids(Refused(drained, failing)) == {}
  {
    RefusedAndAccepted(drained, failing);
    FliesApart(drained, inflight, drained, messages);
    hide *;
    NothingIsLost(drained, Accepted(drained, failing), Refused(drained, failing), messages);
  }

  function Reversed(items: seq<Item>): (r: seq<Item>)
    ensures |r| == |items| && forall x :: x in r <==> x in items
  {
    if items == [] then [] else [items[|items| - 1]] + Reversed(items[..|items| - 1])
  }

  function Room(messages: seq<Item>, items: seq<Item>): (n: nat)
    requires |messages| <= MAX_PENDING_MESSAGES
    ensures n <= |items| && (n == |items| <==> Fits(items, messages))
  {
    if |items| + |messages| <= MAX_PENDING_MESSAGES then |items| else MAX_PENDING_MESSAGES - |messages|
  }

  /** Putting back one by one turns the order around, and drops what comes after the queue is full. */
  lemma {:induction false} ReturnedIs(messages: seq<Item>, items: seq<Item>)
    requires |messages| <= MAX_PENDING_MESSAGES
    ensures Returned(messages, items) == Reversed(items[..Room(messages, items)]) + messages
  {
    if items == [] {
      assert items[..0] == [];
    } else {
      var n, front := |items| - 1, items[..|items| - 1];
      ReturnedIs(messages, front);
      if Room(messages, items) == |items| {
        assert front[..n] == front && items[..|items|] == items;
        assert Reversed(items) == [items[n]] + Reversed(front);
      } else {
        assert front[..Room(messages, items)] == items[..Room(messages, items)];
      }
    }
  }

  lemma ReturnedLosesNothing(messages: seq<Item>, refused: seq<Item>)
    requires |messages| <= MAX_PENDING_MESSAGES && IdsDiffer(refused) && Ids(refused) !! Ids(messages)
    requires forall x :: x in refused ==> x.id != ""
    ensures (forall x :: x in refused ==> x in Returned(messages, refused)) <==> Fits(refused, messages)
  {
    ReturnedIs(messages, refused);
    var n := Room(messages, refused);
    hide Returned;
    if n < |refused| {
      var x := refused[n];
      assert x in refused && x.id in Ids(refused);
      assert x in messages ==> x.id in Ids(messages);
      assert x !in refused[..n];
    } else {
      assert refused[..n] == refused;
    }
  }

  lemma LoopLosesNothing(outer: seq<Item>, taken: seq<Item>, answers: bool, failing: set<string>, messages: seq<Item>, inflight: map<string, Item>)
    requires Flies(outer + taken, inflight) && Apart(messages, inflight) && |messages| <= MAX_PENDING_MESSAGES
    ensures
      var acknowledged := if answers then Accepted(taken, failing) else [];
      var after := if answers then Returned(messages, Refused(taken, failing)) else PutBack(taken, messages);
      (forall x :: x in taken && x.id != "" ==> x in acknowledged || x in after) <==>
      Fits(LoopOwes(taken, answers, failing), messages) || Ids(LoopOwes(taken, answers, failing)) == {}
  {
    FliesApart(outer + taken, inflight, taken, messages);
    if answers {
      FliesPart(outer, taken, inflight);
      hide Flies;
      SettledLosesNothing(taken, failing, messages);
    } else {
      hide Flies;
      NothingIsLost(taken, [], taken, messages);
    }
  }

  lemma FliesPart(outer: seq<Item>, taken: seq<Item>, inflight: map<string, Item>)
    requires Flies(outer + taken, inflight)
    ensures Flies(taken, inflight)
  {
    assert forall i :: 0 <= i < |taken| ==> taken[i] == (outer + taken)[|outer| + i];
    hide IsInput;
  }

  lemma SettledLosesNothing(taken: seq<Item>, failing: set<string>, messages: seq<Item>)
    requires IdsDiffer(taken) && Ids(taken) !! Ids(messages) && |messages| <= MAX_PENDING_MESSAGES
    ensures
      (forall x :: x in taken && x.id != "" ==> x in Accepted(taken, failing) || x in Returned(messages, Refused(taken, failing))) <==>
      Fits(Refused(taken, failing), messages) || Ids(Refused(taken, failing)) == {}
  {
    var refused := Refused(taken, failing);
    RefusedAndAccepted(taken, failing);
    RefusedDiffer(taken, failing);
    hide Refused, Accepted, Returned, IdsDiffer;
    forall x | x in refused ensures x.id in Ids(refused) && x.id in Ids(taken) {
    }
    ReturnedLosesNothing(messages, refused);
    assert Ids(refused) == {} ==> refused == [] by {
      if refused != [] {
        assert refused[0] in refused;
      }
    }
  }

  // ---- The loop's acknowledgements ----

  function Left(x: Item, configured: bool, failing: set<string>): set<string> {
    if x.id == "" || (x.id !in failing && !configured) then {} else {x.id}
  }

  lemma AcceptedStep(taken: seq<Item>, i: nat, failing: set<string>)
    requires i < |taken|
    ensures var x, accepted, refused := taken[i], Accepted(taken[..i], failing), Refused(taken[..i], failing);
            && Accepted(taken[..i + 1], failing) == (if x.id == "" || x.id in failing then accepted else accepted + [x])
            && Refused(taken[..i + 1], failing) == (if x.id == "" || x.id !in failing then refused else refused + [x])
  {
    assert taken[..i + 1][..i] == taken[..i];
  }

  lemma LandedStep(taken: seq<Item>, i: nat, configured: bool, failing: set<string>)
    requires i < |taken|
    ensures Landed(taken[..i + 1], configured, failing) == Landed(taken[..i], configured, failing) + Left(taken[i], configured, failing)
  {
    AcceptedStep(taken, i, failing);
    IdsOfMore(Accepted(taken[..i], failing), taken[i]);
    IdsOfMore(Refused(taken[..i], failing), taken[i]);
    hide Accepted, Refused, Ids;
  }

  lemma ReturnedStep(messages: seq<Item>, items: seq<Item>, x: Item)
    ensures Returned(messages, items + [x]) == PutBack([x], Returned(messages, items))
  {
    assert (items + [x])[..|items|] == items;
  }

  /** The loop has acknowledged or put back the first `i` inputs it took. */
  ghost predicate SettledTo(start: Mail, m: Mail, acknowledged: seq<Item>, i: nat, configured: bool, failing: set<string>) {
    && i <= |start.taken| && acknowledged == Accepted(start.taken[..i], failing)
    && m.messages == Returned(start.messages, Refused(start.taken[..i], failing))
    && m.inflight == start.inflight - Landed(start.taken[..i], configured, failing)
  }

  lemma SettledNone(start: Mail, configured: bool, failing: set<string>)
    ensures SettledTo(start, start, [], 0, configured, failing)
  {
    assert start.taken[..0] == [] && Landed([], configured, failing) == {};
  }

  lemma SettledEnd(start: Mail, m: Mail, acknowledged: seq<Item>, configured: bool, failing: set<string>)
    requires SettledTo(start, m, acknowledged, |start.taken|, configured, failing)
    ensures acknowledged == Accepted(start.taken, failing)
    ensures m.messages == Returned(start.messages, Refused(start.taken, failing))
    ensures m.inflight == start.inflight - Landed(start.taken, configured, failing)
  {
    assert start.taken[..|start.taken|] == start.taken;
  }

  lemma MinusTwice(inflight: map<string, Item>, a: set<string>, b: set<string>)
    ensures inflight - a - b == inflight - (a + b)
  {
  }

  lemma SettledOne(start: Mail, m: Mail, acknowledged: seq<Item>, i: nat, configured: bool, failing: set<string>, m': Mail, ok: bool)
    requires SettledTo(start, m, acknowledged, i, configured, failing) && i < |start.taken|
    requires ok <==> start.taken[i].id != "" && start.taken[i].id !in failing
    requires m'.messages == if start.taken[i].id == "" || ok then m.messages else PutBack([start.taken[i]], m.messages)
    requires m'.inflight == m.inflight - Left(start.taken[i], configured, failing)
    ensures SettledTo(start, m', if ok then acknowledged + [start.taken[i]] else acknowledged, i + 1, configured, failing)
  {
    var x, refused := start.taken[i], Refused(start.taken[..i], failing);
    AcceptedStep(start.taken, i, failing);
    LandedStep(start.taken, i, configured, failing);
    hide Accepted, Refused, Returned, Landed, Left, PutBack;
    MinusTwice(start.inflight, Landed(start.taken[..i], configured, failing), Left(x, configured, failing));
    if x.id != "" && !ok {
      ReturnedStep(start.messages, refused, x);
      assert Refused(start.taken[..i + 1], failing) == refused + [x];
    } else {
      assert Refused(start.taken[..i + 1], failing) == refused;
    }
  }

  lemma SettleStep(messages: seq<Item>, inflight: map<string, Item>, outer: seq<Item>, taken: seq<Item>, i: nat,
                   configured: bool, failing: set<string>)
    requires i < |taken| && Flies(outer + taken[i..], inflight) && Apart(messages, inflight)
    ensures Returnable([taken[i]], messages, inflight)
    ensures Flies(outer + taken[i + 1..], inflight - Left(taken[i], configured, failing))
  {
    var x, left := taken[i], Left(taken[i], configured, failing);
    assert outer + taken[i..] == outer + [x] + taken[i + 1..];
    assert x in outer + taken[i..];
    assert forall y :: y in [x] ==> y == x;
    assert left <= Ids([x]);
    hide Flies, Ids, Apart, Returnable;
    FliesReturns(outer + taken[i..], [x], messages, inflight);
    FliesLess(outer, [x], taken[i + 1..], inflight, left);
  }

  ghost predicate IsPartOf(a: map<string, Item>, b: map<string, Item>) {
    forall id :: id in a ==> id in b && a[id] == b[id]
  }

  lemma {:induction false} RefusedAndAccepted(items: seq<Item>, failing: set<string>)
    ensures forall x :: x in Refused(items, failing) <==> x in items && x.id != "" && x.id in failing
    ensures forall x :: x in Accepted(items, failing) <==> x in items && x.id != "" && x.id !in failing
  {
    if items != [] {
      var front := items[..|items| - 1];
      RefusedAndAccepted(front, failing);
      assert items == front + [items[|front|]];
    }
  }

  /** `x` comes before `y`. */
  ghost predicate Precedes(x: Item, y: Item, items: seq<Item>) {
    exists a, b :: 0 <= a < b < |items| && items[a] == x && items[b] == y
  }

  /** Any two of `some` stand in `items` in the same order. */
  ghost predicate InOrder(some: seq<Item>, items: seq<Item>) {
    (forall i, j :: 0 <= i < j < |some| ==> Precedes(some[i], some[j], items)) && forall x :: x in some ==> x in items
  }

  lemma LongerPrecedes(x: Item, y: Item, items: seq<Item>, z: Item)
    ensures Precedes(x, y, items) ==> Precedes(x, y, items + [z])
    ensures x in items ==> Precedes(x, z, items + [z])
  {
    var longer := items + [z];
    if Precedes(x, y, items) {
      var a, b :| 0 <= a < b < |items| && items[a] == x && items[b] == y;
      assert longer[a] == x && longer[b] == y;
    }
    if x in items {
      var a :| 0 <= a < |items| && items[a] == x;
      assert longer[a] == x && longer[|items|] == z;
    }
  }

  lemma LongerInOrder(some: seq<Item>, items: seq<Item>, z: Item)
    requires InOrder(some, items)
    ensures InOrder(some, items + [z]) && InOrder(some + [z], items + [z])
  {
    var more := some + [z];
    hide Precedes;
    forall i, j | 0 <= i < j < |more| ensures Precedes(more[i], more[j], items + [z]) {
      LongerPrecedes(more[i], more[j], items, z);
    }
    assert forall i :: 0 <= i < |some| ==> some[i] == more[i];
  }

  /** What is acknowledged and what is refused keep the order they were drained in. */
  lemma {:induction false} SettledInOrder(items: seq<Item>, failing: set<string>)
    ensures InOrder(Accepted(items, failing), items) && InOrder(Refused(items, failing), items)
  {
    if items != [] {
      var front, last := items[..|items| - 1], items[|items| - 1];
      SettledInOrder(front, failing);
      RefusedAndAccepted(front, failing);
      LongerInOrder(Accepted(front, failing), front, last);
      LongerInOrder(Refused(front, failing), front, last);
      assert front + [last] == items;
      assert Accepted(front, failing) + [] == Accepted(front, failing) && Refused(front, failing) + [] == Refused(front, failing);
      hide InOrder;
    }
  }

  lemma {:induction false} RefusedDiffer(items: seq<Item>, failing: set<string>)
    requires IdsDiffer(items)
    ensures IdsDiffer(Refused(items, failing))
  {
    if items != [] {
      var front := items[..|items| - 1];
      RefusedDiffer(front, failing);
      RefusedAndAccepted(front, failing);
      forall i | 0 <= i < |Refused(front, failing)| ensures Refused(front, failing)[i].id != items[|front|].id {
        var x := Refused(front, failing)[i];
        assert x in Refused(front, failing);
        var j :| 0 <= j < |front| && front[j] == x;
      }
    }
  }

  lemma RefusedReturns(drained: seq<Item>, failing: set<string>, arrived: seq<Item>, before: map<string, Item>, inflight: map<string, Item>)
    requires Returnable(drained, arrived, before) && IsPartOf(inflight, before)
    ensures Returnable(Refused(drained, failing), arrived, inflight)
  {
    RefusedAndAccepted(drained, failing);
    RefusedDiffer(drained, failing);
    hide Refused, Accepted, IsInput, IdsDiffer;
    var refused := Refused(drained, failing);
    assert Ids(refused) <= Ids(drained);
  }

  function Copies(n: nat): seq<Item> {
    seq(n, i => Item("", "news"))
  }

  lemma {:induction false} CopiesArrive(inflight: map<string, Item>, n: nat)
    requires n <= MAX_PENDING_MESSAGES
    ensures EnqueuedAll([], inflight, seq(n, i => ("", "news"))) == Copies(n)
  {
    TrimSpaceFixesTrimmed("news");
    hide TrimSpace;
    if n > 0 {
      var arrivals := seq(n, i => ("", "news"));
      CopiesArrive(inflight, n - 1);
      assert arrivals[..n - 1] == seq(n - 1, i => ("", "news"));
      assert Copies(n) == Copies(n - 1) + [Item("", "news")];
    }
  }

  predicate Always(i: nat) {
    true
  }

  lemma FullQueue(inflight: map<string, Item>)
    ensures var drained := [Item("m1", "done")];
            && EnqueuedAll([], Flown(inflight, drained), seq(8, i => ("", "news"))) == Copies(8)
            && PutBack(drained, Copies(8)) == Copies(8) && Ids(drained) == {"m1"} && drained[0] !in Copies(8)
  {
    CopiesArrive(Flown(inflight, [Item("m1", "done")]), 8);
    hide EnqueuedAll, Flown;
  }

  method QueueOfOne() returns (queue: Queue)
    ensures fresh(queue) && queue.Valid() && queue.messages == [Item("m1", "done")] && queue.inflight == map[]
  {
    queue := new Queue();
    TrimSpaceFixesTrimmed("done");
    assert TrimSpace("done") == "done";
    hide TrimSpace;
    var ok := queue.Enqueue("m1", "done");
  }

  /** A full queue is where the promise ends: the drained message is neither acknowledged, nor queued, nor in flight. */
  method FullQueueLosesMessage() returns (queue: Queue, r: Report)
    ensures fresh(queue) && r.exit == GenerationFailed && r.drained == [Item("m1", "done")] && r.acknowledged == []
    ensures queue.messages == Copies(8) && Item("m1", "done") !in queue.messages && "m1" !in queue.inflight
  {
    queue := QueueOfOne();
    FullQueue(queue.inflight);
    hide EnqueuedAll, Flown, Enqueued, Queue.Valid, Copies, Ids, PutBack, Refused, Accepted, Returned;
    r := ContinuePending(queue, seq(8, i => ("", "news")), Always, Generation([], false, false), true, {});
  }

  lemma {:induction false} NothingRefused(n: nat, failing: set<string>)
    ensures Refused(Copies(n), failing) == []
  {
    if n > 0 {
      NothingRefused(n - 1, failing);
      assert Copies(n)[..n - 1] == Copies(n - 1);
    }
  }

  lemma OneItem(x: Item, failing: set<string>)
    requires x.id != ""
    ensures Refused([x], failing) == (if x.id in failing then [x] else []) && Accepted([x], failing) == (if x.id in failing then [] else [x])
    ensures Ids([x]) == {x.id}
  {
    assert [x][..0] == [];
  }

  /** A turn over `m1` whose generation is one round that takes the queue and answers. */
  function OneRound(arrivals: seq<(string, string)>): Generation {
    Generation([Round(arrivals, true)], true, true)
  }

  lemma OneRoundFound(inflight: map<string, Item>, arrivals: seq<(string, string)>, items: seq<Item>, failing: set<string>)
    requires EnqueuedAll([], Flown(inflight, [Item("m1", "done")]), arrivals) == items
    ensures
      var drained := [Item("m1", "done")];
      var found := Found(Begun(drained, inflight, []), drained, Always, OneRound(arrivals), true, failing);
      found.taken == items && found.messages == Returned([], Refused(items, failing)) && Succeeds(drained, Always, OneRound(arrivals))
  {
    var m, round := Begun([Item("m1", "done")], inflight, []), Round(arrivals, true);
    RoundsStep(m, [round], 0);
    assert [round][..1] == [round] && [round][..0] == [];
    assert m.messages == [];
    hide EnqueuedAll, Flown, Returned, Refused, Landed;
  }

  /** Eight inputs arrive behind the drained one, but the loop takes and settles them: there is room again. */
  method TakenInputsMakeRoom() returns (queue: Queue, r: Report)
    ensures fresh(queue) && r.exit == NotAllAcknowledged && r.taken == Copies(8)
    ensures queue.messages == [Item("m1", "done")] && "m1" !in queue.inflight
  {
    queue := QueueOfOne();
    ghost var news: seq<(string, string)> := seq(8, i => ("", "news"));
    CopiesArrive(Flown(queue.inflight, [Item("m1", "done")]), 8);
    NothingRefused(8, {"m1"});
    OneRoundFound(queue.inflight, news, Copies(8), {"m1"});
    OneItem(Item("m1", "done"), {"m1"});
    assert Returned([], []) == [];
    hide EnqueuedAll, Flown, Copies, Ids, Accepted, Refused, Found, Begun, Queue.Valid, Returned;
    r := ContinuePending(queue, [], Always, OneRound(seq(8, i => ("", "news"))), true, {"m1"});
  }

  lemma TwoArrive(inflight: map<string, Item>)
    requires "b1" !in inflight && "b2" !in inflight
    ensures EnqueuedAll([], inflight, [("b1", "one"), ("b2", "two")]) == [Item("b1", "one"), Item("b2", "two")]
  {
    TrimSpaceFixesTrimmed("one");
    TrimSpaceFixesTrimmed("two");
    hide TrimSpace;
    var arrivals := [("b1", "one"), ("b2", "two")];
    assert arrivals[..1] == [("b1", "one")] && arrivals[..1][..0] == [];
    assert EnqueuedAll([], inflight, []) == [];
    assert EnqueuedAll([], inflight, arrivals[..1]) == [Item("b1", "one")];
  }

  lemma TwoRefused()
    ensures var b1, b2, failing := Item("b1", "one"), Item("b2", "two"), {"b1", "b2"};
            Refused([b1, b2], failing) == [b1, b2] && Returned([], [b1, b2]) == [b2, b1]
  {
    var b1, b2 := Item("b1", "one"), Item("b2", "two");
    assert [b1, b2][..1] == [b1];
    OneItem(b1, {"b1", "b2"});
    assert [b1][..0] == [];
    assert Returned([], []) == [];
    assert Returned([], [b1]) == PutBack([b1], []) == [b1];
    assert PutBack([b2], [b1]) == [b2, b1];
  }

  /** The loop takes two inputs and can acknowledge neither: they are queued again the wrong way round. */
  method RefusedInputsTurnAround() returns (queue: Queue, r: Report)
    ensures fresh(queue) && r.exit == Answered && r.acknowledged == [Item("m1", "done")]
    ensures r.taken == [Item("b1", "one"), Item("b2", "two")] && queue.messages == [Item("b2", "two"), Item("b1", "one")]
  {
    queue := QueueOfOne();
    var arrivals, failing := [("b1", "one"), ("b2", "two")], {"b1", "b2"};
    FlownIs(queue.inflight, [Item("m1", "done")]);
    OneItem(Item("m1", "done"), failing);
    TwoArrive(Flown(queue.inflight, [Item("m1", "done")]));
    TwoRefused();
    OneRoundFound(queue.inflight, arrivals, [Item("b1", "one"), Item("b2", "two")], failing);
    PutBackNothing([Item("b2", "two"), Item("b1", "one")]);
    hide *;
    r := ContinuePending(queue, [], Always, OneRound(arrivals), true, failing);
    assert Owed(r.drained, Always, OneRound(arrivals), failing) == Refused(r.drained, failing) by {
      OwedIs(r.drained, OneRound(arrivals), failing);
    }
  }

  lemma OwedIs(drained: seq<Item>, g: Generation, failing: set<string>)
    ensures Succeeds(drained, Always, g) ==> Owed(drained, Always, g, failing) == Refused(drained, failing)
  {
  }
}
