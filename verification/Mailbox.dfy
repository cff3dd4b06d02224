/** The durable mailbox of a subagent task, and commits of stale task snapshots around it. */
module Mailbox {
  import opened Text

  const MAX_MESSAGE_RUNES := 20000
  const MAX_MESSAGES := 64
  const MAX_RUNES := 100000

  datatype Status = Queued | Running | WaitingSubagents | WaitingPermission | Succeeded | Failed | Canceled

  datatype Delivery = Unset | Pending | Delivering

  /** `trigger` is text because messages arrive with any trigger; only three are accepted. `createdAt` is absent for the zero time. */
  datatype Message = Message(
    id: string, content: string, trigger: string, delivery: Delivery,
    attempts: nat, lastError: string, createdAt: Option<int>, claimedAt: Option<int>)

  datatype Result<+T> = Ok(value: T) | Err(error: Error)

  datatype Error =
    | TerminalTask | ClosedStatus | EmptyMessage | IdReused | MessageTooLong | MailboxFull | MailboxTooLong | BadTrigger
    | WrongStatus | PendingMailbox | StateConflict

  const QUEUE := "queue"
  const TURN := "trigger_turn"
  const STEER := "steer_current_turn"

  predicate Terminal(s: Status) {
    s == Succeeded || s == Failed || s == Canceled
  }

  function Runes(mailbox: seq<Message>): nat {
    if mailbox == [] then 0 else |mailbox[0].content| + Runes(mailbox[1..])
  }

  function Effective(trigger: string): string {
    if trigger == "" then QUEUE else trigger
  }

  /** The first message that satisfies `p`, or the length. */
  function Find(mailbox: seq<Message>, p: Message -> bool): (i: nat)
    ensures i <= |mailbox|
    ensures i < |mailbox| ==> p(mailbox[i])
    ensures forall k :: 0 <= k < i ==> !p(mailbox[k])
  {
    if mailbox == [] || p(mailbox[0]) then 0 else 1 + Find(mailbox[1..], p)
  }

  // ---- What each operation does to the mailbox ----

  predicate Claimable(m: Message) {
    m.delivery == Unset || m.delivery == Pending
  }

  function InDelivery(id: string): Message -> bool {
    (m: Message) => m.id == id && m.delivery == Delivering
  }

  /** A message as it is stored when it is accepted. */
  function Stored(m: Message, now: int): (stored: Message)
    ensures stored.createdAt.Some?
  {
    m.(content := TrimSpace(m.content), trigger := Effective(m.trigger), delivery := Pending, claimedAt := None, lastError := "",
       createdAt := if m.createdAt.None? then Some(now) else m.createdAt)
  }

  function Claimed(m: Message, now: int): Message {
    m.(delivery := Delivering, attempts := m.attempts + 1, lastError := "", claimedAt := Some(now))
  }

  function Released(m: Message, error: Option<string>): Message {
    m.(delivery := Pending, claimedAt := None, lastError := if error.Some? then TrimSpace(error.value) else "")
  }

  function Recovered(m: Message): Message {
    if m.delivery == Delivering then m.(delivery := Pending, claimedAt := None)
    else if m.delivery == Unset then m.(delivery := Pending)
    else m
  }

  function RecoverAll(mailbox: seq<Message>): seq<Message> {
    seq(|mailbox|, i requires 0 <= i < |mailbox| => Recovered(mailbox[i]))
  }

  datatype Admission = Append | Duplicate | Reject(error: Error)

  function SameId(m: Message): Message -> bool {
    (x: Message) => TrimSpace(m.id) != "" && x.id == m.id
  }

  /** Whether a message may enter a mailbox; a repeated request is accepted without a second entry. */
  function Admit(status: Status, mailbox: seq<Message>, m: Message): Admission {
    var content, trigger := TrimSpace(m.content), Effective(m.trigger);
    if Terminal(status) then Reject(TerminalTask)
    else if status == WaitingPermission then Reject(ClosedStatus)
    else if content == "" then Reject(EmptyMessage)
    else
      var i := Find(mailbox, SameId(m));
      if i < |mailbox| then
        if TrimSpace(mailbox[i].content) == content && Effective(mailbox[i].trigger) == trigger then Duplicate else Reject(IdReused)
      else if |content| > MAX_MESSAGE_RUNES then Reject(MessageTooLong)
      else if |mailbox| >= MAX_MESSAGES then Reject(MailboxFull)
      else if Runes(mailbox) + |content| > MAX_RUNES then Reject(MailboxTooLong)
      else if trigger != QUEUE && trigger != TURN && trigger != STEER then Reject(BadTrigger)
      else Append
  }

  /** A proper message with an id of its own, or none, for an open task with room for it. */
  ghost predicate IsWelcome(status: Status, mailbox: seq<Message>, m: Message) {
    && status in {Queued, Running, WaitingSubagents}
    && 0 < |TrimSpace(m.content)| <= 20000 && m.trigger in {"", "queue", "trigger_turn", "steer_current_turn"}
    && |mailbox| < 64 && Runes(mailbox) + |TrimSpace(m.content)| <= 100000
    && (TrimSpace(m.id) == "" || forall x :: x in mailbox ==> x.id != m.id)
  }

  /** The first message under its id says the same. */
  ghost predicate IsRepeated(status: Status, mailbox: seq<Message>, m: Message) {
    && status in {Queued, Running, WaitingSubagents} && TrimSpace(m.content) != "" && TrimSpace(m.id) != ""
    && exists i :: 0 <= i < |mailbox| && IsFirstWith(mailbox, i, m.id) && TrimSpace(mailbox[i].content) == TrimSpace(m.content)
                   && (if mailbox[i].trigger == "" then "queue" else mailbox[i].trigger) == (if m.trigger == "" then "queue" else m.trigger)
  }

  ghost predicate IsFirstWith(mailbox: seq<Message>, i: nat, id: string) {
    i < |mailbox| && mailbox[i].id == id && forall k :: 0 <= k < i ==> mailbox[k].id != id
  }

  /** What each refusal says is the case. */
  ghost predicate Explains(e: Error, status: Status, mailbox: seq<Message>, m: Message) {
    match e
    case TerminalTask => status in {Succeeded, Failed, Canceled}
    case ClosedStatus => status == WaitingPermission
    case EmptyMessage => TrimSpace(m.content) == ""
    case IdReused => exists x :: x in mailbox && x.id == m.id
    case MessageTooLong => |TrimSpace(m.content)| > 20000
    case MailboxFull => |mailbox| >= 64
    case MailboxTooLong => Runes(mailbox) + |TrimSpace(m.content)| > 100000
    case BadTrigger => m.trigger !in {"", "queue", "trigger_turn", "steer_current_turn"}
    case _ => false
  }

  lemma RepeatedIsAccepted(status: Status, mailbox: seq<Message>, m: Message)
    ensures Admit(status, mailbox, m) == Duplicate <==> IsRepeated(status, mailbox, m)
    ensures Admit(status, mailbox, m).Reject? ==> Explains(Admit(status, mailbox, m).error, status, mailbox, m)
  {
    hide TrimSpace, Runes;
    var i := Find(mailbox, SameId(m));
    if i < |mailbox| {
      assert IsFirstWith(mailbox, i, m.id) && mailbox[i] in mailbox;
    }
    if k :| 0 <= k < |mailbox| && IsFirstWith(mailbox, k, m.id) && TrimSpace(m.id) != "" {
      FoundFirst(mailbox, SameId(m), k);
    }
  }

  lemma WelcomeAppends(status: Status, mailbox: seq<Message>, m: Message)
    ensures Admit(status, mailbox, m) == Append <==> IsWelcome(status, mailbox, m)
  {
    hide TrimSpace;
  }

  /** The message waits, trimmed, under its own id, with the default trigger and the time of its arrival where it named none. */
  ghost predicate IsAsSent(stored: Message, m: Message, now: int) {
    && stored.id == m.id && stored.content == TrimSpace(m.content) && stored.attempts == m.attempts
    && stored.trigger == (if m.trigger == "" then "queue" else m.trigger)
    && stored.delivery == Pending && stored.claimedAt == None && stored.lastError == ""
    && stored.createdAt == if m.createdAt.Some? then m.createdAt else Some(now)
  }

  lemma StoredAsSent(m: Message, now: int)
    ensures IsAsSent(Stored(m, now), m, now)
  {
    hide TrimSpace;
  }

  /** What an entry is, whatever becomes of its delivery. */
  predicate SameMessage(a: Message, b: Message) {
    a.id == b.id && a.content == b.content && a.trigger == b.trigger && a.createdAt == b.createdAt
  }

  class Task {
    var id: string
    var runId: string
    var status: Status
    var mailbox: seq<Message>
    var result: string
    var reasoning: string
    var errorMessage: string
    var unread: bool
    var startedAt: Option<int>
    var completedAt: Option<int>
    var updatedAt: int

    method EnqueueMessage(message: Message, now: int) returns (r: Result<()>)
      modifies this`mailbox, this`updatedAt
      ensures match Admit(status, old(mailbox), message)
              case Reject(e) => r == Err(e) && mailbox == old(mailbox) && updatedAt == old(updatedAt)
              case Duplicate => r == Ok(()) && mailbox == old(mailbox) && updatedAt == old(updatedAt)
              case Append => r == Ok(()) && mailbox == old(mailbox) + [Stored(message, now)] && updatedAt == Stored(message, now).createdAt.value
      ensures mailbox != old(mailbox) <==> IsWelcome(status, old(mailbox), message)
      ensures mailbox != old(mailbox) ==> IsAsSent(mailbox[|old(mailbox)|], message, now)
      ensures r.Ok? <==> IsWelcome(status, old(mailbox), message) || IsRepeated(status, old(mailbox), message)
      ensures r.Err? ==> Explains(r.error, status, old(mailbox), message)
    {
      WelcomeAppends(status, mailbox, message);
      RepeatedIsAccepted(status, mailbox, message);
      StoredAsSent(message, now);
      hide TrimSpace, IsRepeated, Explains, IsWelcome, IsAsSent;
      if Terminal(status) {
        return Err(TerminalTask);
      }
      if status != Queued && status != Running && status != WaitingSubagents {
        return Err(ClosedStatus);
      }
      var m := message.(content := TrimSpace(message.content));
      if m.content == "" {
        return Err(EmptyMessage);
      }
      if m.trigger == "" {
        m := m.(trigger := QUEUE);
      }
      var i := 0;
      while i < |mailbox|
        invariant 0 <= i <= |mailbox|
        invariant forall k :: 0 <= k < i ==> !SameId(message)(mailbox[k])
      {
        var existing := mailbox[i];
        if existing.id != m.id || TrimSpace(m.id) == "" {
          i := i + 1;
          continue;
        }
        FoundFirst(mailbox, SameId(message), i);
        if TrimSpace(existing.content) != m.content || Effective(existing.trigger) != m.trigger {
          return Err(IdReused);
        }
        return Ok(());
      }
      if |m.content| > MAX_MESSAGE_RUNES {
        return Err(MessageTooLong);
      }
      if |mailbox| >= MAX_MESSAGES {
        return Err(MailboxFull);
      }
      if Runes(mailbox) + |m.content| > MAX_RUNES {
        return Err(MailboxTooLong);
      }
      if m.trigger != QUEUE && m.trigger != TURN && m.trigger != STEER {
        return Err(BadTrigger);
      }
      if m.createdAt.None? {
        m := m.(createdAt := Some(now));
      }
      m := m.(delivery := Pending);
      m := m.(claimedAt := None);
      m := m.(lastError := "");
      mailbox := mailbox + [m];
      updatedAt := m.createdAt.value;
      return Ok(());
    }

    method ClaimMailboxMessage(now: int) returns (claimed: Option<Message>)
      modifies this`mailbox, this`updatedAt
      ensures var i := Find(old(mailbox), Claimable);
              if i == |old(mailbox)| then claimed == None && mailbox == old(mailbox) && updatedAt == old(updatedAt)
              else claimed == Some(Claimed(old(mailbox)[i], now)) && mailbox == old(mailbox)[i := Claimed(old(mailbox)[i], now)] && updatedAt == now
      ensures claimed.None? <==> forall m :: m in old(mailbox) ==> m.delivery == Delivering
      ensures claimed.Some? ==>
        && claimed.value.delivery == Delivering && claimed.value.claimedAt == Some(now) && claimed.value.lastError == ""
        && exists i :: 0 <= i < |old(mailbox)| && mailbox[i] == claimed.value && SameMessage(mailbox[i], old(mailbox)[i])
                       && claimed.value.attempts == old(mailbox)[i].attempts + 1
                       && old(mailbox)[i].delivery != Delivering && forall k :: 0 <= k < i ==> old(mailbox)[k].delivery == Delivering
    {
      var i := 0;
      while i < |mailbox|
        invariant 0 <= i <= |mailbox| && mailbox == old(mailbox) && updatedAt == old(updatedAt)
        invariant forall k :: 0 <= k < i ==> !Claimable(mailbox[k])
      {
        var m := mailbox[i];
        if m.delivery != Unset && m.delivery != Pending {
          i := i + 1;
          continue;
        }
        FoundFirst(mailbox, Claimable, i);
        m := m.(delivery := Delivering, attempts := m.attempts + 1);
        m := m.(lastError := "", claimedAt := Some(now));
        mailbox := mailbox[i := m];
        updatedAt := now;
        assert old(mailbox)[i] in old(mailbox);
        return Some(m);
      }
      return None;
    }

    method AcknowledgeMailboxMessage(messageId: string, now: int) returns (acknowledged: bool)
      modifies this`mailbox, this`updatedAt
      ensures var i := Find(old(mailbox), InDelivery(messageId));
              && acknowledged == (i < |old(mailbox)|)
              && mailbox == (if acknowledged then old(mailbox)[..i] + old(mailbox)[i + 1..] else old(mailbox))
              && updatedAt == if acknowledged then now else old(updatedAt)
    {
      var i := 0;
      while i < |mailbox|
        invariant 0 <= i <= |mailbox| && mailbox == old(mailbox) && updatedAt == old(updatedAt)
        invariant forall k :: 0 <= k < i ==> !InDelivery(messageId)(mailbox[k])
      {
        if mailbox[i].id != messageId || mailbox[i].delivery != Delivering {
          i := i + 1;
          continue;
        }
        FoundFirst(mailbox, InDelivery(messageId), i);
        mailbox := mailbox[..i] + mailbox[i + 1..];
        updatedAt := now;
        return true;
      }
      return false;
    }

    method ReleaseMailboxMessage(messageId: string, deliveryError: Option<string>, now: int) returns (released: bool)
      modifies this`mailbox, this`updatedAt
      ensures var i := Find(old(mailbox), InDelivery(messageId));
              && released == (i < |old(mailbox)|)
              && mailbox == (if released then old(mailbox)[i := Released(old(mailbox)[i], deliveryError)] else old(mailbox))
              && updatedAt == if released then now else old(updatedAt)
      ensures released ==>
        exists i :: 0 <= i < |old(mailbox)| && old(mailbox)[i].delivery == Delivering && old(mailbox)[i].id == messageId
                    && mailbox[i].delivery == Pending && mailbox[i].claimedAt == None && SameMessage(mailbox[i], old(mailbox)[i])
                    && mailbox[i].attempts == old(mailbox)[i].attempts
                    && mailbox[i].lastError == if deliveryError.Some? then TrimSpace(deliveryError.value) else ""
    {
      hide TrimSpace;
      var i := 0;
      while i < |mailbox|
        invariant 0 <= i <= |mailbox| && mailbox == old(mailbox) && updatedAt == old(updatedAt)
        invariant forall k :: 0 <= k < i ==> !InDelivery(messageId)(mailbox[k])
      {
        var m := mailbox[i];
        if m.id != messageId || m.delivery != Delivering {
          i := i + 1;
          continue;
        }
        FoundFirst(mailbox, InDelivery(messageId), i);
        m := m.(delivery := Pending, claimedAt := None, lastError := "");
        if deliveryError.Some? {
          m := m.(lastError := TrimSpace(deliveryError.value));
        }
        mailbox := mailbox[i := m];
        updatedAt := now;
        return true;
      }
      return false;
    }

    method RecoverMailboxDeliveries(now: int) returns (changed: bool)
      modifies this`mailbox, this`updatedAt
      ensures mailbox == RecoverAll(old(mailbox))
      ensures changed <==> mailbox != old(mailbox)
      ensures updatedAt == if changed then now else old(updatedAt)
      ensures |mailbox| == |old(mailbox)| && forall i :: 0 <= i < |mailbox| ==>
        && mailbox[i].delivery == Pending && SameMessage(mailbox[i], old(mailbox)[i])
        && mailbox[i].attempts == old(mailbox)[i].attempts && mailbox[i].lastError == old(mailbox)[i].lastError
        && (old(mailbox)[i].delivery == Delivering ==> mailbox[i].claimedAt == None)
        && (old(mailbox)[i].delivery == Pending ==> mailbox[i] == old(mailbox)[i])
    {
      changed := false;
      var i := 0;
      while i < |mailbox|
        invariant 0 <= i <= |mailbox| == |old(mailbox)| && updatedAt == old(updatedAt)
        invariant forall k :: 0 <= k < i ==> mailbox[k] == Recovered(old(mailbox)[k])
        invariant forall k :: i <= k < |mailbox| ==> mailbox[k] == old(mailbox)[k]
        invariant changed <==> exists k :: 0 <= k < i && mailbox[k] != old(mailbox)[k]
      {
        var m := mailbox[i];
        if m.delivery == Unset {
          m := m.(delivery := Pending);
          changed := true;
        }
        if m.delivery == Delivering {
          m := m.(delivery := Pending, claimedAt := None);
          changed := true;
        }
        mailbox := mailbox[i := m];
        i := i + 1;
      }
      if changed {
        updatedAt := now;
      }
    }

    method MarkRunning(now: int) returns (r: Result<()>)
      modifies this`status, this`startedAt, this`updatedAt
      ensures r.Ok? <==> old(status) == Queued
      ensures if r.Ok? then status == Running && startedAt == Some(now) && updatedAt == now
              else status == old(status) && startedAt == old(startedAt) && updatedAt == old(updatedAt)
    {
      if status != Queued {
        return Err(WrongStatus);
      }
      status, startedAt, updatedAt := Running, Some(now), now;
      return Ok(());
    }

    method MarkSucceeded(answer: string, thoughts: string, now: int) returns (r: Result<()>)
      modifies this`status, this`result, this`reasoning, this`errorMessage, this`unread, this`completedAt, this`updatedAt
      ensures r.Ok? <==> !Terminal(old(status)) && mailbox == []
      ensures if r.Ok? then
                && status == Succeeded && result == TrimSpace(answer) && reasoning == TrimSpace(thoughts) && errorMessage == "" && unread
                && completedAt == Some(now) && updatedAt == now
              else
                && status == old(status) && result == old(result) && reasoning == old(reasoning) && errorMessage == old(errorMessage)
                && unread == old(unread) && completedAt == old(completedAt) && updatedAt == old(updatedAt)
    {
      if Terminal(status) {
        return Err(TerminalTask);
      }
      if |mailbox| > 0 {
        return Err(PendingMailbox);
      }
      status, result, reasoning, errorMessage, unread := Succeeded, TrimSpace(answer), TrimSpace(thoughts), "", true;
      completedAt, updatedAt := Some(now), now;
      return Ok(());
    }

    /** `MarkFailed` and `MarkCanceled` differ in the status and in whether the user is told. */
    method MarkEnded(end: Status, message: string, now: int) returns (r: Result<()>)
      requires end == Failed || end == Canceled
      modifies this`status, this`errorMessage, this`unread, this`completedAt, this`updatedAt
      ensures r.Ok? <==> !Terminal(old(status))
      ensures if r.Ok? then
                && status == end && errorMessage == TrimSpace(message) && unread == (end == Failed)
                && completedAt == Some(now) && updatedAt == now
              else
                && status == old(status) && errorMessage == old(errorMessage)
                && unread == old(unread) && completedAt == old(completedAt) && updatedAt == old(updatedAt)
    {
      if Terminal(status) {
        return Err(TerminalTask);
      }
      status, errorMessage, unread := end, TrimSpace(message), end == Failed;
      completedAt, updatedAt := Some(now), now;
      return Ok(());
    }
  }

  lemma {:induction false} FoundFirst(mailbox: seq<Message>, p: Message -> bool, i: nat)
    requires i < |mailbox| && p(mailbox[i]) && forall k :: 0 <= k < i ==> !p(mailbox[k])
    ensures Find(mailbox, p) == i
  {
  }

  // ---- Commits of snapshots ----

  /** The stored fields that commits and mailbox operations contend for. */
  datatype Record = Record(id: string, runId: string, status: Status, mailbox: seq<Message>)

  /** A transition computed on an older snapshot is written over the current record. */
  function ReconcileOwnedTaskTransition(current: Record, desired: Record, runId: string): Result<Record> {
    if current.id == "" then Ok(desired)
    else if current.runId != "" && current.runId != runId && !(Terminal(current.status) && desired.status == Queued) then Err(StateConflict)
    else if current.status == Canceled && desired.status != Canceled then Err(StateConflict)
    else if Terminal(current.status) && desired.status != Queued && current.status != desired.status then Err(StateConflict)
    else
      var merged := desired.(mailbox := current.mailbox);
      if merged.status == Succeeded && merged.mailbox != [] then Err(PendingMailbox) else Ok(merged)
  }

  // ---- All interleavings ----

  /**
   * The stored record with two histories of it: every message ever accepted, with its position as
   * its identity, and the ones acknowledged. `tokens[i]` is the position of `record.mailbox[i]`.
   */
  datatype State = State(record: Record, accepted: seq<Message>, tokens: seq<nat>, claimed: set<nat>, acknowledged: set<nat>)

  datatype Action =
    | Enqueue(message: Message, now: int)
    | Claim(now: int)
    | Acknowledge(id: string)
    | Release(id: string, error: Option<string>)
    | Recover
    | Commit(desired: Record, runId: string)

  function Apply(s: State, a: Action): State {
    var box := s.record.mailbox;
    match a
    case Enqueue(m, now) =>
      if Admit(s.record.status, box, m) == Append then
        s.(record := s.record.(mailbox := box + [Stored(m, now)]), accepted := s.accepted + [Stored(m, now)], tokens := s.tokens + [|s.accepted|])
      else s
    case Claim(now) =>
      var i := Find(box, Claimable);
      if i < |box| then
        s.(record := s.record.(mailbox := box[i := Claimed(box[i], now)]), claimed := if i < |s.tokens| then s.claimed + {s.tokens[i]} else s.claimed)
      else s
    case Acknowledge(id) =>
      var i := Find(box, InDelivery(id));
      if i < |box| && i < |s.tokens| then
        State(s.record.(mailbox := box[..i] + box[i + 1..]), s.accepted, s.tokens[..i] + s.tokens[i + 1..], s.claimed, s.acknowledged + {s.tokens[i]})
      else s
    case Release(id, error) =>
      var i := Find(box, InDelivery(id));
      if i < |box| then s.(record := s.record.(mailbox := box[i := Released(box[i], error)])) else s
    case Recover => s.(record := s.record.(mailbox := RecoverAll(box)))
    case Commit(desired, runId) =>
      var r := ReconcileOwnedTaskTransition(s.record, desired, runId);
      if r.Ok? then s.(record := r.value.(id := s.record.id)) else s
  }

  ghost predicate Init(s: State) {
    && s.record.id != "" && s.record.mailbox == [] && s.record.status == Queued
    && s.accepted == [] && s.tokens == [] && s.claimed == {} && s.acknowledged == {}
  }

  /** A mailbox entry is the accepted message at its token, whatever happened to its delivery state since. */
  ghost predicate Bookkeeping(s: State) {
    && |s.tokens| == |s.record.mailbox|
    && (forall i :: 0 <= i < |s.tokens| ==> s.tokens[i] < |s.accepted| && SameMessage(s.record.mailbox[i], s.accepted[s.tokens[i]]))
    && (forall i :: 0 <= i < |s.tokens| && s.record.mailbox[i].delivery == Delivering ==> s.tokens[i] in s.claimed)
    && (forall i, j :: 0 <= i < j < |s.tokens| ==> s.tokens[i] < s.tokens[j])
  }

  /** Every accepted message is still in the mailbox or was acknowledged, not both; only claimed messages are acknowledged. */
  ghost predicate NothingLost(s: State) {
    && (forall t :: 0 <= t < |s.accepted| ==> (t in s.tokens <==> t !in s.acknowledged))
    && s.acknowledged <= s.claimed
    && forall t :: t in s.claimed ==> t < |s.accepted|
  }

  ghost predicate Bounded(s: State) {
    |s.record.mailbox| <= MAX_MESSAGES && Runes(s.record.mailbox) <= MAX_RUNES
  }

  ghost predicate Inv(s: State) {
    && s.record.id != ""
    && Bookkeeping(s) && NothingLost(s) && Bounded(s)
    && (s.record.status == Succeeded ==> s.record.mailbox == [])
  }

  lemma {:induction false} RunesConcat(a: seq<Message>, b: seq<Message>)
    ensures Runes(a + b) == Runes(a) + Runes(b)
  {
    if a == [] {
      assert a + b == b;
    } else {
      RunesConcat(a[1..], b);
      assert (a + b)[1..] == a[1..] + b;
    }
  }

  lemma {:induction false} RunesOfSameContents(a: seq<Message>, b: seq<Message>)
    requires |a| == |b| && forall i :: 0 <= i < |a| ==> a[i].content == b[i].content
    ensures Runes(a) == Runes(b)
  {
    if a != [] {
      RunesOfSameContents(a[1..], b[1..]);
    }
  }

  lemma EnqueueKeeps(s: State, m: Message, now: int)
    requires Inv(s)
    ensures Inv(Apply(s, Enqueue(m, now)))
  {
    hide TrimSpace, SameId, Find;
    if Admit(s.record.status, s.record.mailbox, m) == Append {
      var s' := Apply(s, Enqueue(m, now));
      assert Bounded(s') && s'.record.id != "" && s'.record.status != Succeeded by {
        RunesConcat(s.record.mailbox, [Stored(m, now)]);
        assert Runes([Stored(m, now)]) == |Stored(m, now).content| + Runes([]);
        hide Bookkeeping, NothingLost;
      }
      hide Admit, Bounded;
      assert s'.accepted == s.accepted + [Stored(m, now)] && s'.tokens == s.tokens + [|s.accepted|];
      assert s'.record.mailbox == s.record.mailbox + [Stored(m, now)] && Stored(m, now).delivery == Pending;
      assert s'.claimed == s.claimed && s'.acknowledged == s.acknowledged;
      hide Apply, Stored;
      assert forall t :: t in s'.tokens <==> t in s.tokens || t == |s.accepted|;
    }
  }

  lemma UpdateKeeps(s: State, i: nat, m: Message, claimed: set<nat>)
    requires Inv(s) && i < |s.record.mailbox|
    requires SameMessage(m, s.record.mailbox[i])
    requires claimed == s.claimed || claimed == s.claimed + {s.tokens[i]}
    requires m.delivery == Delivering ==> s.tokens[i] in claimed
    ensures Inv(s.(record := s.record.(mailbox := s.record.mailbox[i := m]), claimed := claimed))
  {
    RunesOfSameContents(s.record.mailbox, s.record.mailbox[i := m]);
  }

  function Without<T>(items: seq<T>, i: nat): (r: seq<T>)
    requires i < |items|
    ensures |r| == |items| - 1
    ensures forall k :: 0 <= k < |r| ==> r[k] == if k < i then items[k] else items[k + 1]
  {
    items[..i] + items[i + 1..]
  }

  lemma RunesWithout(box: seq<Message>, i: nat)
    requires i < |box|
    ensures Runes(box[..i] + box[i + 1..]) <= Runes(box)
  {
    RunesConcat(box[..i], box[i..]);
    RunesConcat(box[..i], box[i + 1..]);
    assert box == box[..i] + box[i..] && box[i..][1..] == box[i + 1..];
  }

  lemma WithoutMembers(tokens: seq<nat>, i: nat)
    requires i < |tokens| && forall j, k :: 0 <= j < k < |tokens| ==> tokens[j] < tokens[k]
    ensures forall t :: t in Without(tokens, i) <==> t in tokens && t != tokens[i]
  {
  }

  lemma AcknowledgeKeepsBooks(s: State, id: string)
    requires Bookkeeping(s)
    ensures Bookkeeping(Apply(s, Acknowledge(id)))
  {
    hide SameMessage, Find;
    var i := Find(s.record.mailbox, InDelivery(id));
    if i < |s.record.mailbox| {
      var box, tokens := Without(s.record.mailbox, i), Without(s.tokens, i);
      var s' := Apply(s, Acknowledge(id));
      assert s'.record.mailbox == box && s'.tokens == tokens;
    }
  }

  lemma AcknowledgeLosesNothing(s: State, id: string)
    requires Bookkeeping(s) && NothingLost(s)
    ensures NothingLost(Apply(s, Acknowledge(id)))
  {
    hide SameMessage, Find;
    var i := Find(s.record.mailbox, InDelivery(id));
    if i < |s.record.mailbox| {
      WithoutMembers(s.tokens, i);
      assert Apply(s, Acknowledge(id)).tokens == Without(s.tokens, i);
    }
  }

  lemma AcknowledgeKeeps(s: State, id: string)
    requires Inv(s)
    ensures Inv(Apply(s, Acknowledge(id)))
  {
    AcknowledgeKeepsBooks(s, id);
    AcknowledgeLosesNothing(s, id);
    hide Find, Bookkeeping, NothingLost, Runes;
    var i := Find(s.record.mailbox, InDelivery(id));
    if i < |s.record.mailbox| {
      RunesWithout(s.record.mailbox, i);
    }
  }

  lemma RecoverKeeps(s: State)
    requires Inv(s)
    ensures Inv(Apply(s, Recover))
  {
    RunesOfSameContents(s.record.mailbox, RecoverAll(s.record.mailbox));
  }

  /** No action breaks the invariant, whatever snapshot a commit was computed on. */
  lemma ApplyKeeps(s: State, a: Action)
    requires Inv(s)
    ensures Inv(Apply(s, a))
  {
    hide Find, Bookkeeping, NothingLost, Bounded, TrimSpace, SameId;
    match a
    case Enqueue(m, now) => EnqueueKeeps(s, m, now);
    case Claim(now) =>
      var i := Find(s.record.mailbox, Claimable);
      if i < |s.record.mailbox| {
        assert |s.tokens| == |s.record.mailbox| by { TokensMatch(s); }
        UpdateKeeps(s, i, Claimed(s.record.mailbox[i], now), s.claimed + {s.tokens[i]});
      }
    case Acknowledge(id) => AcknowledgeKeeps(s, id);
    case Release(id, error) =>
      var i := Find(s.record.mailbox, InDelivery(id));
      if i < |s.record.mailbox| {
        UpdateKeeps(s, i, Released(s.record.mailbox[i], error), s.claimed);
        assert s.(claimed := s.claimed) == s;
      }
    case Recover => RecoverKeeps(s);
    case Commit(desired, runId) => CommitKeeps(s, desired, runId);
  }

  lemma TokensMatch(s: State)
    requires Inv(s)
    ensures |s.tokens| == |s.record.mailbox|
  {
  }

  /**
   * A commit that changes the record was made under the run the record carries, or the record carries none, or it
   * queues an ended task again.
   */
  lemma CommitNeedsItsRun(s: State, desired: Record, runId: string)
    requires Inv(s) && Apply(s, Commit(desired, runId)) != s
    ensures || s.record.runId == "" || s.record.runId == runId
            || (s.record.status in {Succeeded, Failed, Canceled} && desired.status == Queued)
    ensures s.record.status == Canceled ==> desired.status == Canceled
    ensures s.record.status in {Succeeded, Failed} ==> desired.status in {s.record.status, Queued}
  {
  }

  /**
   * Exactly these commits are taken: of the run the record carries, or to queue an ended task again; a canceled
   * task stays canceled, another end changes only into queued, and success needs an empty mailbox.
   */
  lemma CommitIsTaken(current: Record, desired: Record, runId: string)
    requires current.id != ""
    ensures var ended := current.status in {Succeeded, Failed, Canceled};
            ReconcileOwnedTaskTransition(current, desired, runId).Ok? <==>
            && (current.runId == "" || current.runId == runId || (ended && desired.status == Queued))
            && (current.status == Canceled ==> desired.status == Canceled)
            && (ended && desired.status != current.status ==> desired.status == Queued)
            && (desired.status == Succeeded ==> current.mailbox == [])
  {
  }

  /** The run that holds an open task can commit anything, except success over messages still in the mailbox. */
  lemma OwnerCommits(s: State, desired: Record, runId: string)
    requires Inv(s) && s.record.runId == runId && s.record.status !in {Succeeded, Failed, Canceled}
    ensures Apply(s, Commit(desired, runId)) ==
            if desired.status == Succeeded && s.record.mailbox != [] then s
            else s.(record := Record(s.record.id, desired.runId, desired.status, s.record.mailbox))
  {
  }

  /**
   * While a run holds a task that has not ended, whatever other runs commit and whatever happens to the mailbox,
   * status and run stay as they are.
   */
  lemma {:induction false} HoldsItsTask(states: seq<State>, actions: seq<Action>, i: nat)
    requires |states| == |actions| + 1 && i < |states| && Inv(states[0])
    requires forall k :: 0 <= k < |actions| ==> states[k + 1] == Apply(states[k], actions[k])
    requires states[0].record.runId != "" && states[0].record.status !in {Succeeded, Failed, Canceled}
    requires forall k :: 0 <= k < |actions| && actions[k].Commit? ==> actions[k].runId != states[0].record.runId
    ensures Inv(states[i]) && states[i].record.status == states[0].record.status && states[i].record.runId == states[0].record.runId
  {
    hide Inv, Apply;
    if i > 0 {
      HoldsItsTask(states, actions, i - 1);
      ApplyKeeps(states[i - 1], actions[i - 1]);
      OthersLeaveIt(states[i - 1], actions[i - 1]);
    }
  }

  lemma OthersLeaveIt(s: State, a: Action)
    requires Inv(s) && s.record.runId != "" && s.record.status !in {Succeeded, Failed, Canceled}
    requires a.Commit? ==> a.runId != s.record.runId
    ensures Apply(s, a).record.status == s.record.status && Apply(s, a).record.runId == s.record.runId
  {
    hide Find, TrimSpace, Bookkeeping, NothingLost, Bounded, Admit;
  }

  lemma CommitKeeps(s: State, desired: Record, runId: string)
    requires Inv(s)
    ensures Inv(Apply(s, Commit(desired, runId)))
    ensures Apply(s, Commit(desired, runId)).record.mailbox == s.record.mailbox
  {
  }

  ghost predicate Next(s: State, s': State) {
    exists a :: s' == Apply(s, a)
  }

  ghost predicate Run(trace: seq<State>) {
    trace != [] && Init(trace[0]) && forall i :: 0 < i < |trace| ==> Next(trace[i - 1], trace[i])
  }

  /**
   * In every interleaving of mailbox operations and stale commits: no accepted message disappears
   * unacknowledged, the mailbox keeps acceptance order and its bounds, and a succeeded task has none left.
   */
  lemma {:induction false} MailboxIsReliable(trace: seq<State>, i: nat)
    requires Run(trace) && i < |trace|
    ensures Inv(trace[i])
    decreases i
  {
    hide Inv, Apply;
    if i == 0 {
      InitKeeps(trace[0]);
    } else {
      MailboxIsReliable(trace, i - 1);
      assert Next(trace[i - 1], trace[i]);
      var a :| trace[i] == Apply(trace[i - 1], a);
      ApplyKeeps(trace[i - 1], a);
    }
  }

  lemma InitKeeps(s: State)
    requires Init(s)
    ensures Inv(s)
  {
  }

  /** A canceled task stays canceled; any other ended task is left only by being queued again. */
  lemma EndsAreFinal(s: State, a: Action)
    requires Inv(s) && Terminal(s.record.status)
    ensures var next := Apply(s, a).record.status;
            next == s.record.status || (next == Queued && s.record.status != Canceled)
  {
  }

  /** A message leaves the mailbox exactly when it is the first one in delivery under an acknowledged id. */
  lemma OnlyAcknowledgementsRemove(s: State, a: Action, i: nat)
    requires Inv(s) && i < |s.tokens|
    ensures s.tokens[i] !in Apply(s, a).tokens
            <==> a.Acknowledge? && i == Find(s.record.mailbox, InDelivery(a.id))
  {
    hide TrimSpace, SameId, SameMessage;
    match a
    case Acknowledge(id) =>
      var k := Find(s.record.mailbox, InDelivery(id));
      if k < |s.record.mailbox| {
        WithoutMembers(s.tokens, k);
        assert Apply(s, a).tokens == Without(s.tokens, k);
      }
    case Enqueue(_, _) =>
      assert s.tokens <= Apply(s, a).tokens;
    case _ =>
      assert Apply(s, a).tokens == s.tokens;
  }
}
