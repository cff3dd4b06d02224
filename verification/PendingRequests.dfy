/**
 * The table of pending requests of an MCP client: requests, the reader of responses and the closing of the
 * client, in every interleaving.
 */
module PendingRequests {
  import opened Text

  /** What is sent to a waiting request: the response with an id, or the error the client was closed with. */
  datatype Message = Response(id: nat, body: string) | Failure

  /** `pending` maps ids to channels; `channels` are the contents of all one-place channels made so far. */
  datatype Table = Table(pending: map<nat, nat>, channels: seq<seq<Message>>)

  function Registered(t: Table, id: nat): Table {
    Table(t.pending[id := |t.channels|], t.channels + [[]])
  }

  function Removed(t: Table, id: nat): Table {
    t.(pending := t.pending - {id})
  }

  function Sent(t: Table, ch: nat, m: Message): Table {
    if ch < |t.channels| then t.(channels := t.channels[ch := t.channels[ch] + [m]]) else t
  }

  function Told(channels: seq<seq<Message>>, chs: set<nat>): seq<seq<Message>> {
    seq(|channels|, ch requires 0 <= ch < |channels| => if ch in chs then channels[ch] + [Failure] else channels[ch])
  }

  /** Every pending request is taken out of the table and told. */
  function Failed(t: Table): Table {
    Table(map[], Told(t.channels, t.pending.Values))
  }

  /** Every pending request has an empty channel to itself. */
  ghost predicate HasPlaces(t: Table) {
    && (forall id :: id in t.pending ==> t.pending[id] < |t.channels| && t.channels[t.pending[id]] == [])
    && forall id, other :: id in t.pending && other in t.pending && t.pending[id] == t.pending[other] ==> id == other
  }

  class Client {
    var pending: map<nat, nat>
    var channels: seq<seq<Message>>
    var nextID: nat
    var closed: bool

    ghost function Contents(): Table
      reads this
    {
      Table(pending, channels)
    }

    constructor ()
      ensures Contents() == Table(map[], []) && nextID == 0 && !closed
    {
      pending, channels, nextID, closed := map[], [], 0, false;
    }

    method Register() returns (id: nat, ch: nat)
      modifies this
      ensures id == old(nextID) + 1 == nextID && ch == |old(channels)| && closed == old(closed)
      ensures Contents() == Registered(old(Contents()), id)
    {
      nextID := nextID + 1;
      id, ch := nextID, |channels|;
      channels := channels + [[]];
      pending := pending[id := ch];
    }

    method RemovePending(id: nat)
      modifies this`pending
      ensures Contents() == Removed(old(Contents()), id)
    {
      pending := pending - {id};
    }

    /** What the reader does under the mutex: the channel of a response, if somebody waits for it. */
    method TakePending(id: nat) returns (ch: Option<nat>)
      modifies this`pending
      ensures ch == if id in old(pending) then Some(old(pending)[id]) else None
      ensures Contents() == Removed(old(Contents()), id)
    {
      ch := if id in pending then Some(pending[id]) else None;
      pending := pending - {id};
    }

    /** Sending to a channel, which has room for one message. */
    method Send(ch: nat, m: Message) returns (sent: bool)
      requires ch < |channels|
      modifies this`channels
      ensures sent <==> old(channels[ch]) == []
      ensures Contents() == if sent then Sent(old(Contents()), ch, m) else old(Contents())
    {
      sent := |channels[ch]| < 1;
      if sent {
        channels := channels[ch := channels[ch] + [m]];
      }
    }

    /** Sends while holding the mutex, which is sound because every pending request has an empty channel to itself. */
    method FailPending()
      requires HasPlaces(Contents())
      modifies this`pending, this`channels
      ensures Contents() == Failed(old(Contents()))
    {
      hide HasPlaces, Failed;
      while pending != map[]
        invariant HasPlaces(Contents()) && Failed(Contents()) == Failed(old(Contents()))
        decreases |pending|
      {
        var id :| id in pending;
        OneTold(Contents(), id);
        var ch := pending[id];
        pending := pending - {id};
        var sent := Send(ch, Failure);
        assert sent;
      }
      NothingToTell(Contents());
    }

    /** Only the first call does anything. */
    method MarkClosed()
      requires HasPlaces(Contents())
      modifies this
      ensures closed && nextID == old(nextID)
      ensures Contents() == if old(closed) then old(Contents()) else Failed(old(Contents()))
    {
      if closed {
        return;
      }
      closed := true;
      FailPending();
    }
  }

  /** Telling one pending request leaves the others their places, and it remains to tell the others. */
  lemma OneTold(t: Table, id: nat)
    requires HasPlaces(t) && id in t.pending
    ensures t.pending[id] < |t.channels| && t.channels[t.pending[id]] == []
    ensures var rest := Sent(Removed(t, id), t.pending[id], Failure);
            HasPlaces(rest) && Failed(rest) == Failed(t) && |rest.pending| < |t.pending|
  {
    ValuesWithout(t.pending, id);
    var ch, rest := t.pending[id], Sent(Removed(t, id), t.pending[id], Failure);
    assert ch in t.pending.Values;
    assert HasPlaces(rest) by {
      hide Told;
    }
    hide HasPlaces;
    ToldFirst(t.channels, t.pending.Values, ch);
  }

  lemma ToldFirst(channels: seq<seq<Message>>, chs: set<nat>, ch: nat)
    requires ch in chs && ch < |channels|
    ensures Told(channels[ch := channels[ch] + [Failure]], chs - {ch}) == Told(channels, chs)
  {
  }

  lemma NothingToTell(t: Table)
    requires t.pending == map[]
    ensures Failed(t) == t
  {
    assert t.pending.Values == {};
    assert Told(t.channels, {}) == t.channels;
  }

  lemma ValuesWithout(m: map<nat, nat>, id: nat)
    requires id in m && forall other :: other in m && m[other] == m[id] ==> other == id
    ensures (m - {id}).Values == m.Values - {m[id]} && |m - {id}| < |m|
  {
    var rest := m - {id};
    assert m.Keys == rest.Keys + {id} && |rest.Keys| == |rest| && |m.Keys| == |m|;
    forall v | v in m.Values && v != m[id] ensures v in rest.Values {
      var other :| other in m && m[other] == v;
      assert other in rest && rest[other] == v;
    }
  }

  // ---- Threads ----

  datatype Result = Answered(m: Message) | GaveUp

  /** A request between drawing its id and returning; `ch` is the channel it made. */
  datatype Pc = Allocated | Writing(ch: nat) | Waiting(ch: nat) | Removing(ch: nat) | Returned(result: Result)

  datatype Closing = Open | Marked | Closed

  /** A response and the channel the reader has found for it and not sent it to yet. */
  datatype Delivery = Delivery(ch: nat, id: nat, body: string)

  /** As history: `sent` are the channels to which something was sent, `owner` the request each channel was made by. */
  datatype State = State(
    table: Table, requests: map<nat, Pc>, nextID: nat, reader: Option<Delivery>, closing: Closing,
    sent: set<nat>, owner: seq<nat>)

  datatype Action =
    | Allocate
    | Register(id: nat)
    | Write(id: nat, ok: bool)
    | TakeAnswer(id: nat)
    | TimeOut(id: nat)                     // the context ends while waiting
    | SeeClosed(id: nat)
    | Remove(id: nat)
    | Read(id: nat, body: string)          // a line with any id at all
    | Send
    | MarkClosed
    | FailPending

  predicate HasRoom(s: State, ch: nat) {
    ch < |s.table.channels| && s.table.channels[ch] == []
  }

  predicate HasMessage(s: State, ch: nat) {
    ch < |s.table.channels| && s.table.channels[ch] != []
  }

  predicate Enabled(s: State, a: Action) {
    match a
    case Allocate => true
    case Register(id) => id in s.requests && s.requests[id] == Allocated
    case Write(id, _) => id in s.requests && s.requests[id].Writing?
    case TakeAnswer(id) => id in s.requests && s.requests[id].Waiting? && HasMessage(s, s.requests[id].ch)
    case TimeOut(id) => id in s.requests && s.requests[id].Waiting?
    case SeeClosed(id) => id in s.requests && s.requests[id].Waiting? && s.closing != Open
    case Remove(id) => id in s.requests && s.requests[id].Removing?
    case Read(_, _) => s.reader == None
    case Send => s.reader.Some? && HasRoom(s, s.reader.value.ch)
    case MarkClosed => s.closing == Open
    case FailPending => s.closing == Marked && forall id :: id in s.table.pending ==> HasRoom(s, s.table.pending[id])
  }

  function Moved(s: State, id: nat, pc: Pc): map<nat, Pc> {
    s.requests[id := pc]
  }

  function Apply(s: State, a: Action): State
    requires Enabled(s, a)
  {
    match a
    case Allocate => s.(nextID := s.nextID + 1, requests := Moved(s, s.nextID + 1, Allocated))
    case Register(id) =>
      s.(table := Registered(s.table, id), requests := Moved(s, id, Writing(|s.table.channels|)), owner := s.owner + [id])
    case Write(id, ok) =>
      var ch := s.requests[id].ch;
      s.(requests := Moved(s, id, if ok then Waiting(ch) else Removing(ch)))
    case TakeAnswer(id) =>
      var ch := s.requests[id].ch;
      s.(requests := Moved(s, id, Returned(Answered(s.table.channels[ch][0]))),
         table := s.table.(channels := s.table.channels[ch := s.table.channels[ch][1..]]))
    case TimeOut(id) => s.(requests := Moved(s, id, Removing(s.requests[id].ch)))
    case SeeClosed(id) => s.(requests := Moved(s, id, Removing(s.requests[id].ch)))
    case Remove(id) => s.(table := Removed(s.table, id), requests := Moved(s, id, Returned(GaveUp)))
    case Read(id, body) =>
      s.(table := Removed(s.table, id),
         reader := if id in s.table.pending then Some(Delivery(s.table.pending[id], id, body)) else None)
    case Send =>
      var d := s.reader.value;
      s.(table := Sent(s.table, d.ch, Response(d.id, d.body)), reader := None, sent := s.sent + {d.ch})
    case MarkClosed => s.(closing := Marked)
    case FailPending => s.(table := Failed(s.table), closing := Closed, sent := s.sent + s.table.pending.Values)
  }

  ghost predicate Init(s: State) {
    s == State(Table(map[], []), map[], 0, None, Open, {}, [])
  }

  // ---- Invariant ----

  predicate Own(m: Message, id: nat) {
    m.Response? ==> m.id == id
  }

  predicate HasChannel(pc: Pc) {
    pc.Writing? || pc.Waiting? || pc.Removing?
  }

  predicate InReader(s: State, ch: nat) {
    s.reader.Some? && s.reader.value.ch == ch
  }

  /** A request uses the channel it made, and while it waits its message is under way. */
  ghost predicate RequestFits(s: State, id: nat) {
    id in s.requests ==>
      && id <= s.nextID
      && var pc := s.requests[id];
      && (HasChannel(pc) ==> pc.ch < |s.owner| && s.owner[pc.ch] == id)
      && ((pc.Writing? || pc.Waiting?) ==>
            (id in s.table.pending && s.table.pending[id] == pc.ch) || InReader(s, pc.ch) || HasMessage(s, pc.ch))
      && (pc.Returned? && pc.result.Answered? ==> Own(pc.result.m, id))
  }

  /** A pending entry is the channel of its unfinished request, empty and unused. */
  ghost predicate EntryFits(s: State, id: nat) {
    id in s.table.pending ==>
      var ch := s.table.pending[id];
      && id in s.requests && HasChannel(s.requests[id]) && s.requests[id].ch == ch
      && HasRoom(s, ch) && ch !in s.sent && !InReader(s, ch)
  }

  ghost predicate ChannelFits(s: State, ch: nat) {
    && (ch in s.sent ==> ch < |s.owner|)
    && (ch < |s.table.channels| && ch < |s.owner| ==>
          && |s.table.channels[ch]| <= 1
          && (s.table.channels[ch] != [] ==> ch in s.sent && Own(s.table.channels[ch][0], s.owner[ch])))
  }

  /** The reader holds a response for the request that made the channel, which is empty and unused. */
  ghost predicate ReaderFits(s: State) {
    s.reader.Some? ==>
      var d := s.reader.value;
      HasRoom(s, d.ch) && d.ch !in s.sent && d.ch < |s.owner| && s.owner[d.ch] == d.id
  }

  ghost predicate Inv(s: State) {
    && |s.owner| == |s.table.channels| && ReaderFits(s)
    && (forall id :: RequestFits(s, id)) && (forall id :: EntryFits(s, id)) && (forall ch :: ChannelFits(s, ch))
  }

  lemma ReaderStep(s: State, a: Action)
    requires Inv(s) && Enabled(s, a)
    ensures ReaderFits(Apply(s, a)) && |Apply(s, a).owner| == |Apply(s, a).table.channels|
  {
    if a.Read? {
      assert EntryFits(s, a.id) && RequestFits(s, a.id);
    }
    if a.TakeAnswer? {
      assert RequestFits(s, a.id) && ChannelFits(s, s.requests[a.id].ch);
    }
    if a.FailPending? && s.reader.Some? {
      assert forall id :: id in s.table.pending ==> EntryFits(s, id);
    }
    hide RequestFits, EntryFits, ChannelFits, Own;
  }

  lemma RequestStep(s: State, a: Action, id: nat)
    requires Inv(s) && Enabled(s, a)
    ensures RequestFits(Apply(s, a), id)
  {
    assert RequestFits(s, id) && EntryFits(s, id);
    if a.TakeAnswer? {
      assert RequestFits(s, a.id) && ChannelFits(s, s.requests[a.id].ch);
    }
    hide Inv, EntryFits, ChannelFits, ReaderFits;
  }

  /** Channels of different requests differ, so emptying or filling one leaves the pending ones alone. */
  lemma EntryStep(s: State, a: Action, id: nat)
    requires Inv(s) && Enabled(s, a)
    ensures EntryFits(Apply(s, a), id)
  {
    assert EntryFits(s, id) && RequestFits(s, id) && ChannelFits(s, |s.owner|);
    if a.TakeAnswer? {
      assert RequestFits(s, a.id) && ChannelFits(s, s.requests[a.id].ch);
    }
    if a.Read? {
      assert EntryFits(s, a.id) && RequestFits(s, a.id);
    }
    assert ReaderFits(s) && |s.owner| == |s.table.channels|;
    hide Inv, Own;
  }

  lemma ChannelStep(s: State, a: Action, ch: nat)
    requires Inv(s) && Enabled(s, a)
    ensures ChannelFits(Apply(s, a), ch)
  {
    assert ChannelFits(s, ch) && ChannelFits(s, |s.owner|);
    if a.FailPending? {
      forall id | id in s.table.pending ensures s.table.pending[id] < |s.owner| && s.table.channels[s.table.pending[id]] == [] {
        assert EntryFits(s, id);
      }
    }
    hide RequestFits, EntryFits;
  }

  lemma ApplyKeeps(s: State, a: Action)
    requires Inv(s) && Enabled(s, a)
    ensures Inv(Apply(s, a))
  {
    ReaderStep(s, a);
    hide RequestFits, EntryFits, ChannelFits, ReaderFits, Apply, Enabled;
    forall id ensures RequestFits(Apply(s, a), id) && EntryFits(Apply(s, a), id) {
      RequestStep(s, a, id);
      EntryStep(s, a, id);
    }
    forall ch ensures ChannelFits(Apply(s, a), ch) {
      ChannelStep(s, a, ch);
    }
  }

  ghost predicate Next(s: State, s': State) {
    exists a :: Enabled(s, a) && s' == Apply(s, a)
  }

  ghost predicate IsRun(run: seq<State>) {
    run != [] && Init(run[0]) && forall i :: 0 <= i < |run| - 1 ==> Next(run[i], run[i + 1])
  }

  lemma {:induction false} RunKeeps(run: seq<State>, i: nat)
    requires IsRun(run) && i < |run|
    ensures Inv(run[i])
  {
    hide Apply, Enabled, Inv;
    if i == 0 {
      InitIsInv(run[0]);
    } else {
      RunKeeps(run, i - 1);
      assert Next(run[i - 1], run[i]);
      var a :| Enabled(run[i - 1], a) && run[i] == Apply(run[i - 1], a);
      ApplyKeeps(run[i - 1], a);
    }
  }

  lemma InitIsInv(s: State)
    requires Init(s)
    ensures Inv(s)
  {
  }

  /**
   * Neither the reader nor the closing of the client ever waits for room in a channel, and to no channel is
   * anything sent a second time.
   */
  lemma SendsNeverBlock(run: seq<State>, i: nat)
    requires IsRun(run) && i < |run|
    ensures run[i].reader.Some? ==> Enabled(run[i], Send) && run[i].reader.value.ch !in run[i].sent
    ensures run[i].closing == Marked ==> Enabled(run[i], FailPending) && HasPlaces(run[i].table)
    ensures run[i].table.pending.Values !! run[i].sent
  {
    RunKeeps(run, i);
    var s := run[i];
    forall id | id in s.table.pending ensures HasRoom(s, s.table.pending[id]) && s.table.pending[id] !in s.sent {
      assert EntryFits(s, id);
    }
    forall id, other | id in s.table.pending && other in s.table.pending && s.table.pending[id] == s.table.pending[other] ensures id == other {
      assert EntryFits(s, id) && EntryFits(s, other) && RequestFits(s, id) && RequestFits(s, other);
    }
  }

  /** A request that was answered with a response got the one with its own id (section 5 of the JSON-RPC 2.0 Specification). */
  lemma AnswersAreOwn(run: seq<State>, i: nat, id: nat, m: Message)
    requires IsRun(run) && i < |run| && id in run[i].requests && run[i].requests[id] == Returned(Answered(m))
    ensures m == Failure || m.id == id
  {
    RunKeeps(run, i);
    assert RequestFits(run[i], id);
  }

  /** Returned requests leave nothing behind; with none under way the table is empty, whenever they were registered. */
  lemma TableEmpties(run: seq<State>, i: nat)
    requires IsRun(run) && i < |run|
    ensures forall id :: id in run[i].table.pending ==> id in run[i].requests && !run[i].requests[id].Returned?
    ensures (forall id :: id in run[i].requests ==> run[i].requests[id].Returned? || run[i].requests[id] == Allocated) ==> run[i].table.pending == map[]
  {
    RunKeeps(run, i);
    forall id | id in run[i].table.pending ensures id in run[i].requests && HasChannel(run[i].requests[id]) {
      assert EntryFits(run[i], id);
    }
  }

  /** A request that is still waiting is pending, or its message is in the reader's hands or in its channel. */
  lemma NobodyIsForgotten(run: seq<State>, i: nat, id: nat)
    requires IsRun(run) && i < |run| && id in run[i].requests && run[i].requests[id].Waiting?
    ensures id in run[i].table.pending || InReader(run[i], run[i].requests[id].ch) || Enabled(run[i], TakeAnswer(id))
    ensures run[i].closing != Open ==> Enabled(run[i], SeeClosed(id))
  {
    RunKeeps(run, i);
    assert RequestFits(run[i], id);
  }

  // ---- What a request gets is what the server sent ----

  /** The response is in somebody's hands: the reader's, a channel's or a request's. */
  ghost predicate Around(s: State, id: nat, body: string) {
    || (s.reader.Some? && s.reader.value.id == id && s.reader.value.body == body)
    || (exists ch :: 0 <= ch < |s.table.channels| && Response(id, body) in s.table.channels[ch])
    || (exists q :: q in s.requests && s.requests[q] == Returned(Answered(Response(id, body))))
  }

  ghost predicate Reads(s: State, s': State, id: nat, body: string) {
    Enabled(s, Read(id, body)) && s' == Apply(s, Read(id, body))
  }

  lemma OnlyReadingBrings(s: State, a: Action, id: nat, body: string)
    requires Enabled(s, a) && Around(Apply(s, a), id, body)
    ensures Around(s, id, body) || a == Read(id, body)
  {
    var s' := Apply(s, a);
    if ch :| 0 <= ch < |s'.table.channels| && Response(id, body) in s'.table.channels[ch] {
      OnlySendingFills(s, a, ch, Response(id, body));
    }
  }

  lemma OnlySendingFills(s: State, a: Action, ch: nat, m: Message)
    requires Enabled(s, a) && ch < |Apply(s, a).table.channels| && m in Apply(s, a).table.channels[ch] && m != Failure
    ensures (ch < |s.table.channels| && m in s.table.channels[ch]) || (s.reader.Some? && m == Response(s.reader.value.id, s.reader.value.body))
  {
  }

  /** Before moment `i` of the run the reader has read this response. */
  ghost predicate WasRead(run: seq<State>, i: nat, id: nat, body: string)
    requires i < |run|
  {
    exists k :: 0 <= k < i && Reads(run[k], run[k + 1], id, body)
  }

  lemma ReadNow(run: seq<State>, i: nat, id: nat, body: string)
    requires 0 < i < |run| && Reads(run[i - 1], run[i], id, body)
    ensures WasRead(run, i, id, body)
  {
    hide Reads;
    var k := i - 1;
    assert Reads(run[k], run[k + 1], id, body);
  }

  lemma ReadBefore(run: seq<State>, i: nat, id: nat, body: string)
    requires 0 < i < |run| && WasRead(run, i - 1, id, body)
    ensures WasRead(run, i, id, body)
  {
    hide Reads;
    var k :| 0 <= k < i - 1 && Reads(run[k], run[k + 1], id, body);
  }

  lemma {:induction false} AroundWasRead(run: seq<State>, i: nat, id: nat, body: string)
    requires IsRun(run) && i < |run| && Around(run[i], id, body)
    ensures WasRead(run, i, id, body)
  {
    hide Apply, Enabled, Around, Init, WasRead;
    if i > 0 {
      assert Next(run[i - 1], run[i]);
      var a :| Enabled(run[i - 1], a) && run[i] == Apply(run[i - 1], a);
      OnlyReadingBrings(run[i - 1], a, id, body);
      if a == Read(id, body) {
        ReadNow(run, i, id, body);
      } else {
        AroundWasRead(run, i - 1, id, body);
        ReadBefore(run, i, id, body);
      }
    } else {
      NothingAround(run[0], id, body);
    }
  }

  lemma NothingAround(s: State, id: nat, body: string)
    requires Init(s)
    ensures !Around(s, id, body)
  {
  }

  /** A request that was answered got, word by word, a response the reader has read. */
  lemma AnswersWereRead(run: seq<State>, i: nat, q: nat, id: nat, body: string)
    requires IsRun(run) && i < |run| && q in run[i].requests && run[i].requests[q] == Returned(Answered(Response(id, body)))
    ensures WasRead(run, i, id, body)
  {
    hide IsRun, WasRead;
    AroundWasRead(run, i, id, body);
  }

  /** The request is on its way out, without an answer. */
  predicate HasGivenUp(s: State, id: nat) {
    id in s.requests && (s.requests[id].Removing? || s.requests[id] == Returned(GaveUp))
  }

  lemma GivenUpStep(s: State, a: Action, id: nat)
    requires Inv(s) && Enabled(s, a)
    ensures HasGivenUp(s, id) || a == Write(id, false) || a == TimeOut(id) || a == SeeClosed(id) ==> HasGivenUp(Apply(s, a), id)
  {
    assert RequestFits(s, id);
    hide EntryFits, ChannelFits, Inv, HasPlaces;
  }

  /** A request that could not be written, ran out of time or saw the closing never returns an answer. */
  lemma {:induction false} GivenUpStays(run: seq<State>, k: nat, i: nat, a: Action, id: nat)
    requires IsRun(run) && k < i < |run| && Enabled(run[k], a) && run[k + 1] == Apply(run[k], a)
    requires a == Write(id, false) || a == TimeOut(id) || a == SeeClosed(id)
    ensures HasGivenUp(run[i], id)
  {
    hide Inv, Init, HasGivenUp, Apply, Enabled;
    RunKeeps(run, i - 1);
    if i == k + 1 {
      GivenUpStep(run[k], a, id);
    } else {
      GivenUpStays(run, k, i - 1, a, id);
      assert Next(run[i - 1], run[i]);
      var b :| Enabled(run[i - 1], b) && run[i] == Apply(run[i - 1], b);
      GivenUpStep(run[i - 1], b, id);
    }
  }
}
