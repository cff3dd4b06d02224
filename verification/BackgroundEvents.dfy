/**
 * Publishing the events of background turns to subscribers. A subscriber that is too slow is cut off
 * rather than skipped over.
 */
module BackgroundEvents {
  import opened Text

  /** `sequence` counts the events of a turn; `run` is the run the turn was last told of. */
  datatype Event = Event(turn: nat, run: string, sequence: nat, content: string)

  /** A buffered channel; `closes` counts how often it was closed. */
  datatype Channel = Channel(capacity: nat, queued: seq<Event>, closes: nat)

  /** `backgroundSubscribers`, and all channels ever handed out. */
  datatype Hub = Hub(channels: map<nat, Channel>, subscribers: set<nat>)

  function Clamped(buffer: int): nat {
    if buffer < 1 then 1 else if buffer > 1024 then 1024 else buffer
  }

  function Subscribed(h: Hub, id: nat, buffer: int): Hub {
    Hub(h.channels[id := Channel(Clamped(buffer), [], 0)], h.subscribers + {id})
  }

  function Closed(c: Channel): Channel {
    c.(closes := c.closes + 1)
  }

  function Unsubscribed(h: Hub, id: nat): Hub {
    if id in h.subscribers && id in h.channels then Hub(h.channels[id := Closed(h.channels[id])], h.subscribers - {id}) else h
  }

  predicate HasRoom(c: Channel) {
    |c.queued| < c.capacity
  }

  function Offered(c: Channel, e: Event): Channel {
    if HasRoom(c) then c.(queued := c.queued + [e]) else Closed(c)
  }

  function Published(h: Hub, e: Event): Hub {
    Hub(map id | id in h.channels :: if id in h.subscribers then Offered(h.channels[id], e) else h.channels[id],
        set id | id in h.subscribers && id in h.channels && HasRoom(h.channels[id]))
  }

  class Broadcaster {
    var channels: map<nat, Channel>
    var subscribers: set<nat>

    ghost function Contents(): Hub
      reads this
    {
      Hub(channels, subscribers)
    }

    constructor ()
      ensures Contents() == Hub(map[], {})
    {
      channels, subscribers := map[], {};
    }

    method Subscribe(id: nat, buffer: int)
      requires id !in channels
      modifies this
      ensures Contents() == Subscribed(old(Contents()), id, buffer)
      ensures id in subscribers && channels[id].queued == [] && channels[id].closes == 0
      ensures channels[id].capacity == if buffer <= 1 then 1 else if buffer >= 1024 then 1024 else buffer
    {
      var capacity := buffer;
      if capacity < 1 {
        capacity := 1;
      }
      if capacity > 1024 {
        capacity := 1024;
      }
      channels := channels[id := Channel(capacity, [], 0)];
      subscribers := subscribers + {id};
    }

    /** A second call, or one after the subscriber was cut off, does nothing. */
    method Unsubscribe(id: nat)
      requires subscribers <= channels.Keys
      modifies this
      ensures Contents() == Unsubscribed(old(Contents()), id)
    {
      if id in subscribers {
        subscribers := subscribers - {id};
        channels := channels[id := Closed(channels[id])];
      }
    }

    /** Visits the subscribers in any order. */
    method Publish(e: Event)
      requires subscribers <= channels.Keys
      modifies this
      ensures Contents() == Published(old(Contents()), e)
      ensures forall id :: id in old(subscribers) && |old(channels)[id].queued| < old(channels)[id].capacity ==>
        id in subscribers && channels[id] == old(channels)[id].(queued := old(channels)[id].queued + [e])
      ensures forall id :: id in old(subscribers) && |old(channels)[id].queued| >= old(channels)[id].capacity ==>
        id !in subscribers && channels[id] == old(channels)[id].(closes := old(channels)[id].closes + 1)
      ensures channels.Keys == old(channels.Keys) && forall id :: id in channels && id !in old(subscribers) ==> channels[id] == old(channels)[id]
    {
      var rest := subscribers;
      while rest != {}
        invariant rest <= old(subscribers) && channels.Keys == old(channels.Keys)
        invariant subscribers == set id | id in old(subscribers) && (id in rest || HasRoom(old(channels)[id]))
        invariant forall id :: id in channels ==>
          channels[id] == if id in old(subscribers) && id !in rest then Offered(old(channels)[id], e) else old(channels)[id]
        decreases rest
      {
        var id :| id in rest;
        rest := rest - {id};
        if |channels[id].queued| < channels[id].capacity {
          channels := channels[id := channels[id].(queued := channels[id].queued + [e])];
        } else {
          subscribers := subscribers - {id};
          channels := channels[id := Closed(channels[id])];
        }
      }
      assert channels == Published(old(Contents()), e).channels;
    }
  }

  /** The counter of one background turn; `emit` runs under the turn's own lock up to the end of the publication. */
  class Stream {
    const turn: nat
    var sequence: nat
    var run: string

    constructor (turn: nat)
      ensures this.turn == turn && sequence == 0 && run == ""
    {
      this.turn, sequence, run := turn, 0, "";
    }

    method Emit(hub: Broadcaster, started: Option<string>, content: string)
      requires hub.subscribers <= hub.channels.Keys
      modifies this, hub
      ensures sequence == old(sequence) + 1 && run == if started.Some? then started.value else old(run)
      ensures hub.Contents() == Published(old(hub.Contents()), Event(turn, run, sequence, content))
    {
      if started.Some? {
        run := started.value;
      }
      sequence := sequence + 1;
      hub.Publish(Event(turn, run, sequence, content));
    }
  }

  // ---- Runs ----

  /** What a subscriber has taken out of its channel, and how many events were published before it subscribed. */
  datatype Reader = Reader(received: seq<Event>, start: nat)

  datatype Turn = Turn(sequence: nat, run: string)

  /** `log` are all published events. */
  datatype State = State(hub: Hub, readers: map<nat, Reader>, turns: map<nat, Turn>, log: seq<Event>)

  datatype Action =
    | Subscribe(id: nat, buffer: int)
    | Unsubscribe(id: nat)
    | Receive(id: nat)
    | NewTurn(turn: nat)
    | Emit(turn: nat, started: Option<string>, content: string)

  predicate Enabled(s: State, a: Action) {
    match a
    case Subscribe(id, _) => id !in s.hub.channels && id !in s.readers
    case Unsubscribe(id) => id in s.readers
    case Receive(id) => id in s.readers && id in s.hub.channels && s.hub.channels[id].queued != []
    case NewTurn(turn) => turn !in s.turns
    case Emit(turn, _, _) => turn in s.turns
  }

  function EmittedTurn(t: Turn, started: Option<string>): Turn {
    Turn(t.sequence + 1, if started.Some? then started.value else t.run)
  }

  function Apply(s: State, a: Action): State
    requires Enabled(s, a)
  {
    match a
    case Subscribe(id, buffer) => s.(hub := Subscribed(s.hub, id, buffer), readers := s.readers[id := Reader([], |s.log|)])
    case Unsubscribe(id) => s.(hub := Unsubscribed(s.hub, id))
    case Receive(id) =>
      var c := s.hub.channels[id];
      s.(hub := s.hub.(channels := s.hub.channels[id := c.(queued := c.queued[1..])]),
         readers := s.readers[id := s.readers[id].(received := s.readers[id].received + [c.queued[0]])])
    case NewTurn(turn) => s.(turns := s.turns[turn := Turn(0, "")])
    case Emit(turn, started, content) =>
      var t := EmittedTurn(s.turns[turn], started);
      var e := Event(turn, t.run, t.sequence, content);
      s.(hub := Published(s.hub, e), turns := s.turns[turn := t], log := s.log + [e])
  }

  /** Received and queued events are a stretch of the log, which for a subscriber reaches to its end. */
  ghost predicate ReaderFits(s: State, id: nat) {
    id in s.readers ==>
      && id in s.hub.channels
      && var r, c := s.readers[id], s.hub.channels[id];
      var end := r.start + |r.received| + |c.queued|;
      && end <= |s.log| && r.received + c.queued == s.log[r.start..end]
      && (id in s.hub.subscribers ==> end == |s.log|)
      && c.closes == (if id in s.hub.subscribers then 0 else 1)
      && 1 <= c.capacity <= 1024 && |c.queued| <= c.capacity
  }

  function OfTurn(log: seq<Event>, turn: nat): seq<Event> {
    if log == [] then []
    else
      var last := log[|log| - 1];
      OfTurn(log[..|log| - 1], turn) + if last.turn == turn then [last] else []
  }

  ghost predicate CountsFrom(events: seq<Event>, first: nat) {
    forall k :: 0 <= k < |events| ==> events[k].sequence == first + k
  }

  ghost predicate TurnFits(s: State, turn: nat) {
    && |OfTurn(s.log, turn)| == (if turn in s.turns then s.turns[turn].sequence else 0)
    && CountsFrom(OfTurn(s.log, turn), 1)
    && (turn in s.turns ==> s.turns[turn].run == LastRun(OfTurn(s.log, turn)))
  }

  /** The run the latest event names. */
  function LastRun(events: seq<Event>): string {
    if events == [] then "" else events[|events| - 1].run
  }

  ghost predicate Inv(s: State) {
    && s.readers.Keys == s.hub.channels.Keys && s.hub.subscribers <= s.hub.channels.Keys
    && (forall id :: ReaderFits(s, id)) && (forall turn :: TurnFits(s, turn))
  }

  lemma EmitStep(s: State, a: Action, id: nat)
    requires ReaderFits(s, id) && s.hub.subscribers <= s.hub.channels.Keys && Enabled(s, a) && a.Emit?
    ensures ReaderFits(Apply(s, a), id)
  {
    if id in s.readers {
      var r, c := s.readers[id], s.hub.channels[id];
      var end := r.start + |r.received| + |c.queued|;
      assert Apply(s, a).log[r.start..end] == s.log[r.start..end];
    }
  }

  lemma ReceiveStep(s: State, id: nat)
    requires ReaderFits(s, id) && Enabled(s, Receive(id))
    ensures ReaderFits(Apply(s, Receive(id)), id)
  {
    var s' := Apply(s, Receive(id));
    var r, c := s.readers[id], s.hub.channels[id];
    assert s'.readers[id].received + s'.hub.channels[id].queued == r.received + c.queued;
  }

  lemma ReaderStep(s: State, a: Action, id: nat)
    requires Inv(s) && Enabled(s, a)
    ensures ReaderFits(Apply(s, a), id)
  {
    assert ReaderFits(s, id) && s.hub.subscribers <= s.hub.channels.Keys;
    if a.Emit? {
      hide *;
      EmitStep(s, a, id);
    } else if a == Receive(id) {
      hide *;
      ReceiveStep(s, id);
    } else {
      hide TurnFits, Inv;
    }
  }

  lemma TurnStep(s: State, a: Action, turn: nat)
    requires Inv(s) && Enabled(s, a)
    ensures TurnFits(Apply(s, a), turn)
  {
    assert TurnFits(s, turn);
    hide ReaderFits, Published;
    if a.Emit? {
      var s' := Apply(s, a);
      assert s'.log[..|s'.log| - 1] == s.log;
    }
  }

  lemma ApplyKeeps(s: State, a: Action)
    requires Inv(s) && Enabled(s, a)
    ensures Inv(Apply(s, a))
  {
    forall id ensures ReaderFits(Apply(s, a), id) {
      ReaderStep(s, a, id);
    }
    forall turn ensures TurnFits(Apply(s, a), turn) {
      TurnStep(s, a, turn);
    }
    hide ReaderFits, TurnFits;
  }

  ghost predicate Next(s: State, s': State) {
    exists a :: Enabled(s, a) && s' == Apply(s, a)
  }

  ghost predicate IsRun(run: seq<State>) {
    run != [] && run[0] == State(Hub(map[], {}), map[], map[], []) && forall i :: 0 <= i < |run| - 1 ==> Next(run[i], run[i + 1])
  }

  lemma {:induction false} RunKeeps(run: seq<State>, i: nat)
    requires IsRun(run) && i < |run|
    ensures Inv(run[i])
  {
    hide Apply, Enabled, ReaderFits;
    if i == 0 {
      InitIsInv(run[0]);
    } else {
      RunKeeps(run, i - 1);
      assert Next(run[i - 1], run[i]);
      var a :| Enabled(run[i - 1], a) && run[i] == Apply(run[i - 1], a);
      ApplyKeeps(run[i - 1], a);
    }
  }

  lemma InitIsInv(s: State)
    requires s == State(Hub(map[], {}), map[], map[], [])
    ensures Inv(s)
  {
  }

  /**
   * What a subscriber has received is the log from its subscription on, without gaps. While it is subscribed
   * the rest waits in its channel; its channel is closed exactly once, when it is not subscribed any more.
   */
  lemma NothingIsSkipped(run: seq<State>, i: nat, id: nat)
    requires IsRun(run) && i < |run| && id in run[i].readers
    ensures var s := run[i];
            var r := s.readers[id];
            && id in s.hub.channels && r.start + |r.received| <= |s.log|
            && r.received == s.log[r.start..r.start + |r.received|]
            && (id in s.hub.subscribers ==> s.log[r.start..] == r.received + s.hub.channels[id].queued)
            && s.hub.channels[id].closes == (if id in s.hub.subscribers then 0 else 1)
  {
    RunKeeps(run, i);
    var s := run[i];
    hide IsRun;
    assert ReaderFits(s, id);
    var r, c := s.readers[id], s.hub.channels[id];
    assert r.received == (r.received + c.queued)[..|r.received|];
    assert s.log[r.start..r.start + |r.received| + |c.queued|][..|r.received|] == s.log[r.start..r.start + |r.received|];
  }

  lemma {:induction false} OfTurnConcat(a: seq<Event>, b: seq<Event>, turn: nat)
    ensures OfTurn(a + b, turn) == OfTurn(a, turn) + OfTurn(b, turn)
  {
    if b == [] {
      assert a + b == a;
    } else {
      OfTurnConcat(a, b[..|b| - 1], turn);
      assert (a + b)[..|a + b| - 1] == a + b[..|b| - 1];
    }
  }

  /** The events of a turn are numbered 1, 2, 3 in the order of publication. */
  lemma TurnsCount(run: seq<State>, i: nat, turn: nat)
    requires IsRun(run) && i < |run|
    ensures CountsFrom(OfTurn(run[i].log, turn), 1)
  {
    RunKeeps(run, i);
    assert TurnFits(run[i], turn);
  }

  lemma StretchCounts(before: seq<Event>, stretch: seq<Event>, after: seq<Event>, turn: nat)
    requires CountsFrom(OfTurn(before + (stretch + after), turn), 1)
    ensures CountsFrom(OfTurn(stretch, turn), |OfTurn(before, turn)| + 1)
  {
    OfTurnConcat(before, stretch + after, turn);
    OfTurnConcat(stretch, after, turn);
    var all, mine := OfTurn(before + (stretch + after), turn), OfTurn(stretch, turn);
    hide OfTurn;
    forall k | 0 <= k < |mine| ensures mine[k].sequence == |OfTurn(before, turn)| + 1 + k {
      assert mine[k] == all[|OfTurn(before, turn)| + k];
    }
  }

  /** So the events of a turn that a subscriber has received carry consecutive numbers: a missing number means missing events. */
  lemma ReceivedCounts(run: seq<State>, i: nat, id: nat, turn: nat)
    requires IsRun(run) && i < |run| && id in run[i].readers
    ensures var r := run[i].readers[id];
            r.start <= |run[i].log| && CountsFrom(OfTurn(r.received, turn), |OfTurn(run[i].log[..r.start], turn)| + 1)
  {
    NothingIsSkipped(run, i, id);
    TurnsCount(run, i, turn);
    var log, r := run[i].log, run[i].readers[id];
    hide IsRun, OfTurn, CountsFrom;
    var before, after := log[..r.start], log[r.start + |r.received|..];
    assert log == before + (r.received + after);
    StretchCounts(before, r.received, after, turn);
  }

  /** An event names the run it announces or, if it announces none, the run of the turn's event before it. */
  lemma EventsNameTheirRun(run: seq<State>, i: nat, turn: nat, started: Option<string>, content: string)
    requires IsRun(run) && i + 1 < |run|
    requires Enabled(run[i], Emit(turn, started, content)) && run[i + 1] == Apply(run[i], Emit(turn, started, content))
    ensures var mine := OfTurn(run[i].log, turn);
            run[i + 1].log == run[i].log + [Event(turn, if started.Some? then started.value else LastRun(mine), |mine| + 1, content)]
  {
    RunKeeps(run, i);
    assert TurnFits(run[i], turn);
    hide IsRun, Published;
  }

  /** A subscriber loses its subscription only by its own call or by an event for which its channel has no room. */
  lemma OnlyFullChannelsAreCutOff(s: State, a: Action, id: nat)
    requires Inv(s) && Enabled(s, a) && id in s.hub.subscribers && id !in Apply(s, a).hub.subscribers
    ensures a == Unsubscribe(id) || (a.Emit? && |s.hub.channels[id].queued| == s.hub.channels[id].capacity)
    ensures Apply(s, a).hub.channels[id].queued == s.hub.channels[id].queued
  {
    assert ReaderFits(s, id);
  }
}
