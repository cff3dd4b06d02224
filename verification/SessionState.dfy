/** The session aggregate: restoring it, appending to it, and building the model's context from it. */
module SessionState {
  import opened Text
  import opened TokenBudget
  import opened Messages
  import opened ContextWindow
  import opened WindowSelection
  import opened Compaction

  /** The stored fields, of which old records fill some and version-1 records fill others. */
  datatype InitialState = InitialState(
    summary: string, compacted: int, sourceHash: string, checkpoint: Option<Checkpoint>, entries: seq<Entry>)

  /** Every sequence number is above the one before. */
  ghost predicate Increasing(entries: seq<Entry>) {
    forall i, j :: 0 <= i < j < |entries| ==> entries[i].sequence < entries[j].sequence
  }

  /** A summary in use describes the prefix it replaces. */
  ghost predicate SummaryMatches(codec: Codec, entries: seq<Entry>, summary: string, compacted: int, hash: string) {
    TrimSpace(summary) != "" ==> TrimSpace(hash) != "" && hash == SourceHash(codec, entries, compacted)
  }

  /** Messages that have been given an identity already. */
  ghost predicate Identified(entries: seq<Entry>) {
    && Increasing(entries)
    && forall i :: 0 <= i < |entries| ==> entries[i].id != "" && entries[i].sequence > 0 && entries[i].createdAt.Some?
  }

  /** A record with a summary in use, as a session in order writes it. */
  ghost predicate Stored(codec: Codec, state: InitialState) {
    && 1 <= state.compacted <= |state.entries|
    && TrimSpace(state.summary) != "" && TrimSpace(state.sourceHash) != ""
    && state.sourceHash == SourceHash(codec, state.entries, state.compacted)
    && (state.checkpoint.Some? ==>
          var c := state.checkpoint.value;
          c.end == state.compacted && TrimSpace(c.hash) != "" && Matches(codec, state.entries, c))
  }

  function LastSequence(entries: seq<Entry>): int {
    if entries == [] then 0 else entries[|entries| - 1].sequence
  }

  /** The identity of one message behind a message numbered `last`. */
  function Identify(entry: Entry, index: nat, last: int, stableId: (nat, Entry) -> string): Entry {
    var wanted :=
      if entry.sequence > 0 then entry.sequence
      else if entry.createdAt.Some? then entry.createdAt.value else index + 1;
    var sequence := if wanted <= last then last + 1 else wanted;
    Entry(if entry.id == "" then stableId(index, entry) else entry.id,
          sequence,
          if entry.createdAt.None? then Some(sequence) else entry.createdAt,
          entry.message, entry.source)
  }

  function Normalized(entries: seq<Entry>, stableId: (nat, Entry) -> string): seq<Entry> {
    if entries == [] then []
    else
      var n := |entries| - 1;
      var front := Normalized(entries[..n], stableId);
      front + [Identify(entries[n], n, LastSequence(front), stableId)]
  }

  /** Old messages keep their content and get increasing positive numbers. */
  lemma {:induction false} NormalizedIsIncreasing(entries: seq<Entry>, stableId: (nat, Entry) -> string)
    ensures var result := Normalized(entries, stableId);
            && SameContent(entries, result)
            && Increasing(result) && LastSequence(result) >= 0
            && (forall i :: 0 <= i < |result| ==> 0 < result[i].sequence <= LastSequence(result) && result[i].createdAt.Some?)
  {
    if entries != [] {
      var n := |entries| - 1;
      NormalizedIsIncreasing(entries[..n], stableId);
      var front := Normalized(entries[..n], stableId);
      var last := Identify(entries[n], n, LastSequence(front), stableId);
      assert last.sequence > LastSequence(front);
      hide Identify;
      assert Normalized(entries, stableId) == front + [last];
    }
  }

  /** What a message has is kept if the order allows it, and what is missing is derived. */
  ghost predicate IsIdentified(given: Entry, index: nat, last: int, stableId: (nat, Entry) -> string, result: Entry) {
    && result.id == (if given.id != "" then given.id else stableId(index, given))
    && result.message == given.message && result.source == given.source
    && result.createdAt == (if given.createdAt.Some? then given.createdAt else Some(result.sequence))
    && (given.sequence > last && given.sequence > 0 ==> result.sequence == given.sequence)
    && (given.sequence <= 0 && given.createdAt.Some? && given.createdAt.value > last ==> result.sequence == given.createdAt.value)
    && (given.sequence <= 0 && given.createdAt.None? && index >= last ==> result.sequence == index + 1)
    && (result.sequence == last + 1 || result.sequence == given.sequence || Some(result.sequence) == given.createdAt || result.sequence == index + 1)
  }

  lemma IdentifyIdentifies(given: Entry, index: nat, last: int, stableId: (nat, Entry) -> string)
    ensures IsIdentified(given, index, last, stableId, Identify(given, index, last, stableId))
  {
  }

  /** The number in front of position `i`. */
  function Before(entries: seq<Entry>, i: nat): int
    requires i <= |entries|
  {
    if i == 0 then 0 else entries[i - 1].sequence
  }

  lemma {:induction false} NormalizedIdentifies(entries: seq<Entry>, stableId: (nat, Entry) -> string)
    ensures var result := Normalized(entries, stableId);
            && |result| == |entries|
            && forall i :: 0 <= i < |entries| ==> IsIdentified(entries[i], i, Before(result, i), stableId, result[i])
  {
    hide Identify, IsIdentified;
    if entries != [] {
      var n := |entries| - 1;
      NormalizedIdentifies(entries[..n], stableId);
      var front := Normalized(entries[..n], stableId);
      IdentifyIdentifies(entries[n], n, LastSequence(front), stableId);
      var result := front + [Identify(entries[n], n, LastSequence(front), stableId)];
      assert Normalized(entries, stableId) == result && LastSequence(front) == Before(result, n);
      forall i | 0 <= i < n ensures IsIdentified(entries[i], i, Before(result, i), stableId, result[i]) {
        assert entries[..n][i] == entries[i] && Before(result, i) == Before(front, i);
      }
    }
  }

  /** Identified messages do not change. */
  lemma {:induction false} IdentifiedUnchanged(entries: seq<Entry>, stableId: (nat, Entry) -> string)
    requires Identified(entries)
    ensures Normalized(entries, stableId) == entries
  {
    if entries != [] {
      var n := |entries| - 1;
      IdentifiedUnchanged(entries[..n], stableId);
      assert entries == entries[..n] + [entries[n]];
      assert Identify(entries[n], n, LastSequence(entries[..n]), stableId) == entries[n];
    }
  }

  /** Gives old messages the identity that new ones get when they are appended. */
  method NormalizeMetadata(entries: seq<Entry>, stableId: (nat, Entry) -> string) returns (result: seq<Entry>)
    ensures result == Normalized(entries, stableId)
  {
    hide Identify;
    result := [];
    var lastSequence := 0;
    var index := 0;
    while index < |entries|
      invariant 0 <= index <= |entries|
      invariant result == Normalized(entries[..index], stableId) && lastSequence == LastSequence(result)
    {
      assert entries[..index + 1][..index] == entries[..index];
      var entry := NormalizeOne(entries[index], index, lastSequence, stableId);
      lastSequence := entry.sequence;
      result := result + [entry];
      index := index + 1;
    }
    assert entries[..index] == entries;
  }

  /** The body of that loop. */
  method NormalizeOne(entry: Entry, index: nat, lastSequence: int, stableId: (nat, Entry) -> string) returns (result: Entry)
    ensures result == Identify(entry, index, lastSequence, stableId)
  {
    result := entry;
    if result.id == "" {
      result := result.(id := stableId(index, result));
    }
    if result.sequence <= 0 {
      result := result.(sequence := if result.createdAt.Some? then result.createdAt.value else index + 1);
    }
    if result.sequence <= lastSequence {
      result := result.(sequence := lastSequence + 1);
    }
    if result.createdAt.None? {
      result := result.(createdAt := Some(result.sequence));
    }
  }

  /** What a session holds about its compaction. */
  datatype Digest = Digest(summary: string, compacted: int, hash: string, checkpoint: Option<Checkpoint>)

  /** What is missing is taken from a stored checkpoint. */
  function CompletedWith(d: Digest, checkpoint: Option<Checkpoint>): Digest {
    if checkpoint.None? then d
    else
      var c := checkpoint.value;
      Digest(if d.summary == "" then c.summary else d.summary, if c.end > 0 then c.end else d.compacted,
             if d.hash == "" then c.hash else d.hash, checkpoint)
  }

  function Completed(state: InitialState, entries: seq<Entry>): Digest {
    CompletedWith(Digest(state.summary, NormalizeCompacted(Contents(entries), state.compacted), state.sourceHash, None), state.checkpoint)
  }

  /** A legacy checkpoint without a hash is given the one of its prefix, or dropped when that prefix is not there. */
  function Rehashed(codec: Codec, entries: seq<Entry>, d: Digest): Digest {
    if d.checkpoint.Some? && d.checkpoint.value.version == 0 && TrimSpace(d.checkpoint.value.hash) == "" then
      var rebuilt := RebuildLegacyHash(codec, entries, d.checkpoint.value.end);
      if rebuilt == "" then d.(checkpoint := None)
      else d.(checkpoint := Some(d.checkpoint.value.(hash := rebuilt)), hash := rebuilt)
    else d
  }

  /** What cannot be tied to the history is dropped. */
  function Checked(codec: Codec, entries: seq<Entry>, d: Digest): Digest {
    if d.checkpoint.Some? && !Matches(codec, entries, d.checkpoint.value) then Digest("", 0, "", None)
    else if TrimSpace(d.summary) == "" then d
    else
      var hash := if TrimSpace(d.hash) == "" then RebuildLegacyHash(codec, entries, d.compacted) else d.hash;
      if TrimSpace(hash) == "" || SourceHash(codec, entries, d.compacted) != hash then d.(summary := "", compacted := 0, hash := "")
      else d.(hash := hash)
  }

  function Restored(codec: Codec, entries: seq<Entry>, state: InitialState): Digest {
    Checked(codec, entries, Rehashed(codec, entries, Completed(state, entries)))
  }

  /** Whether what is held survives one more message. */
  predicate SurvivesAppend(codec: Codec, entries: seq<Entry>, entry: Entry, d: Digest) {
    || Collides(codec, entries, entry)
    || (&& (TrimSpace(d.summary) == "" || d.compacted <= |entries|)
        && (d.checkpoint.Some? ==> EndsWithin(d.checkpoint.value, |entries|)))
  }

  function RebuildLegacyHash(codec: Codec, entries: seq<Entry>, compacted: int): string {
    if entries == [] || compacted <= 0 || compacted > |entries| then "" else SourceHash(codec, entries, compacted)
  }

  lemma EmptyIsBlank()
    ensures TrimSpace("") == ""
  {
  }

  class Session {
    const codec: Codec
    var entries: seq<Entry>
    var summary: string
    var compacted: int
    var sourceHash: string
    var checkpoint: Option<Checkpoint>

    function CurrentDigest(): Digest
      reads this
    {
      Digest(summary, compacted, sourceHash, checkpoint)
    }

    /** A summary in use and a checkpoint kept both match the history. */
    ghost predicate Valid()
      reads this
    {
      DigestFits(codec, entries, CurrentDigest()) && Increasing(entries)
    }

    /**
     * Whatever mix of old and new fields a record has, the restored session is consistent; what a
     * session in order has written is restored as it was.
     */
    constructor FromState(codec: Codec, state: InitialState, stableId: (nat, Entry) -> string, system: Message)
      ensures this.codec == codec && Valid()
      ensures entries == if state.entries == [] then [Entry("", 0, None, system, NO_SOURCE)] else Normalized(state.entries, stableId)
      ensures CurrentDigest() == Restored(codec, entries, state)
      ensures state.entries != [] ==> SameContent(state.entries, entries)
      ensures Stored(codec, state) ==> CurrentDigest() == Digest(state.summary, state.compacted, state.sourceHash, state.checkpoint)
      ensures Identified(state.entries) && state.entries != [] ==> entries == state.entries
    {
      hide TrimSpace, Matches, SourceHash, RebuildLegacyHash, Normalized, Rehashed, Checked, Identified, Stored, SameContent;
      var hadMessages := |state.entries| > 0;
      var messages := if hadMessages then state.entries else [Entry("", 0, None, system, NO_SOURCE)];
      RestoredInOrder(codec, messages, state, stableId);
      ContentsSame(messages, Normalized(messages, stableId));
      messages := NormalizeMetadata(messages, stableId);
      ghost var final := if hadMessages then messages else [Entry("", 0, None, system, NO_SOURCE)];
      RestoredFits(codec, final, state);
      var contents := seq(|messages|, i requires 0 <= i < |messages| => messages[i].message);
      this.codec := codec;
      this.entries := messages;
      this.summary := state.summary;
      this.compacted := NormalizeCompacted(contents, state.compacted);
      this.sourceHash := state.sourceHash;
      this.checkpoint := None;
      new;
      assert compacted == NormalizeCompacted(Contents(final), state.compacted);
      Complete(state.checkpoint);
      if !hadMessages {
        entries := [Entry("", 0, None, system, NO_SOURCE)];
      }
      hide DigestFits, NormalizeCompacted, Contents;
      Reconcile();
    }

    /** The first half of restoring. */
    method Complete(stored: Option<Checkpoint>)
      requires checkpoint == None
      modifies this`summary, this`compacted, this`sourceHash, this`checkpoint
      ensures CurrentDigest() == CompletedWith(old(CurrentDigest()), stored)
    {
      if stored.Some? {
        checkpoint := stored;
        if summary == "" {
          summary := checkpoint.value.summary;
        }
        if checkpoint.value.end > 0 {
          compacted := checkpoint.value.end;
        }
        if sourceHash == "" {
          sourceHash := checkpoint.value.hash;
        }
      }
    }

    /** Drops what cannot be tied to the history; the second half of restoring. */
    method Reconcile()
      modifies this`summary, this`compacted, this`sourceHash, this`checkpoint
      ensures CurrentDigest() == Checked(codec, entries, Rehashed(codec, entries, old(CurrentDigest())))
    {
      hide TrimSpace, Matches, SourceHash, RebuildLegacyHash;
      if checkpoint.Some? && checkpoint.value.version == 0 && TrimSpace(checkpoint.value.hash) == "" {
        var rebuilt := RebuildLegacyHash(codec, entries, checkpoint.value.end);
        if rebuilt != "" {
          checkpoint := Some(checkpoint.value.(hash := rebuilt));
          sourceHash := rebuilt;
        } else {
          checkpoint := None;
        }
      }
      if checkpoint.Some? && !Matches(codec, entries, checkpoint.value) {
        summary, compacted, sourceHash, checkpoint := "", 0, "", None;
      } else if TrimSpace(summary) != "" {
        if TrimSpace(sourceHash) == "" {
          sourceHash := RebuildLegacyHash(codec, entries, compacted);
        }
        if TrimSpace(sourceHash) == "" || SourceHash(codec, entries, compacted) != sourceHash {
          summary, compacted, sourceHash := "", 0, "";
        }
      }
    }

    /** `now` and `freshId` are the clock and the generated identity. */
    method AppendMessage(entry: Entry, now: int, freshId: string)
      requires Valid()
      modifies this`entries
      ensures |entries| == |old(entries)| + 1 && entries[..|old(entries)|] == old(entries)
      ensures entries[|old(entries)|].message == entry.message && entries[|old(entries)|].source == entry.source
      ensures entries[|old(entries)|].id == if entry.id != "" then entry.id else freshId
      ensures entries[|old(entries)|].createdAt == if entry.createdAt.Some? then entry.createdAt else Some(now)
      ensures entry.sequence > LastSequence(old(entries)) && entry.sequence > 0 ==> entries[|old(entries)|].sequence == entry.sequence
      ensures Increasing(entries)
      ensures Valid() <==> SurvivesAppend(codec, old(entries), entries[|old(entries)|], CurrentDigest())
    {
      hide TrimSpace, SourceHash, Matches, Collides;
      var message := entry;
      if message.id == "" {
        message := message.(id := freshId);
      }
      if message.createdAt.None? {
        message := message.(createdAt := Some(now));
      }
      var lastSequence := 0;
      if |entries| > 0 {
        lastSequence := entries[|entries| - 1].sequence;
      }
      if message.sequence <= lastSequence {
        message := message.(sequence := message.createdAt.value);
        if message.sequence <= lastSequence {
          message := message.(sequence := lastSequence + 1);
        }
      }
      DigestAfterAppend(codec, entries, message, CurrentDigest());
      entries := entries + [message];
    }

    method Clear(system: Message, stableId: (nat, Entry) -> string)
      modifies this
      ensures Valid() && summary == "" && compacted == 0 && sourceHash == "" && checkpoint == None
      ensures |entries| == 1 && entries[0].message == system && entries[0].sequence > 0
      ensures entries == Normalized([Entry("", 0, None, system, NO_SOURCE)], stableId)
    {
      NormalizedIsIncreasing([Entry("", 0, None, system, NO_SOURCE)], stableId);
      entries := NormalizeMetadata([Entry("", 0, None, system, NO_SOURCE)], stableId);
      summary, compacted, sourceHash, checkpoint := "", 0, "", None;
    }
  }

  ghost predicate DigestFits(codec: Codec, entries: seq<Entry>, d: Digest) {
    && SummaryMatches(codec, entries, d.summary, d.compacted, d.hash)
    && (d.checkpoint.Some? ==> Matches(codec, entries, d.checkpoint.value))
  }

  lemma ContentsSame(a: seq<Entry>, b: seq<Entry>)
    requires SameContent(a, b)
    ensures Contents(a) == Contents(b)
  {
  }

  lemma RestoredFits(codec: Codec, entries: seq<Entry>, state: InitialState)
    ensures DigestFits(codec, entries, Restored(codec, entries, state))
  {
    EmptyIsBlank();
    hide TrimSpace, Matches, SourceHash, Rehashed, Completed;
  }

  /** A record in order is restored as it was, although its messages may have to be given an identity. */
  lemma RestoredInOrder(codec: Codec, messages: seq<Entry>, state: InitialState, stableId: (nat, Entry) -> string)
    requires messages == state.entries || (state.entries == [] && |messages| == 1)
    ensures var entries := Normalized(messages, stableId);
            && SameContent(messages, entries) && Increasing(entries)
            && (Identified(messages) ==> entries == messages)
            && (Stored(codec, state) ==> state.entries != [] && Restored(codec, entries, state) == Digest(state.summary, state.compacted, state.sourceHash, state.checkpoint))
  {
    hide Normalized, Restored, TrimSpace, SourceHash, Matches, Increasing, Identified;
    NormalizedIsIncreasing(messages, stableId);
    if Identified(messages) {
      IdentifiedUnchanged(messages, stableId);
    }
    if Stored(codec, state) {
      StoredStays(codec, Normalized(messages, stableId), state);
    }
  }

  lemma StoredStays(codec: Codec, entries: seq<Entry>, state: InitialState)
    requires Stored(codec, state) && SameContent(state.entries, entries)
    ensures Restored(codec, entries, state) == Digest(state.summary, state.compacted, state.sourceHash, state.checkpoint)
  {
    EmptyIsBlank();
    SourceHashSeesContent(codec, state.entries, entries, state.compacted);
    if state.checkpoint.Some? {
      MatchesSeesContent(codec, state.entries, entries, state.checkpoint.value);
    }
    hide TrimSpace, Matches, SourceHash;
  }

  /** A fingerprint of some prefix of the history. */
  ghost predicate IsFingerprint(codec: Codec, entries: seq<Entry>, end: int, hash: string) {
    1 <= end <= |entries| && hash != "" && TrimSpace(hash) == hash && hash == codec.hash(Traits(entries[..end]))
  }

  /**
   * A record that has only a checkpoint gets the checkpoint's summary, count and fingerprint back, exactly when
   * the fingerprint, without white space around it, is the one of a prefix.
   */
  lemma CheckpointRestores(codec: Codec, entries: seq<Entry>, state: InitialState)
    requires state.checkpoint.Some? && state.summary == "" && state.sourceHash == ""
    requires var c := state.checkpoint.value; Validate(codec, c) && c.version == CURRENT_VERSION
    ensures var c := state.checkpoint.value;
            Restored(codec, entries, state) == Digest(c.summary, c.end, c.hash, Some(c)) <==>
            c.start == 0 && IsFingerprint(codec, entries, c.end, c.hash)
  {
    EmptyIsBlank();
    hide TrimSpace, NormalizeCompacted, Contents;
  }

  /** A legacy checkpoint without a fingerprint comes back with the one of its prefix, if that is there. */
  lemma LegacyRestores(codec: Codec, entries: seq<Entry>, state: InitialState, hash: string)
    requires state.checkpoint.Some? && state.summary == "" && state.sourceHash == ""
    requires var c := state.checkpoint.value;
             && c.version == 0 && TrimSpace(c.summary) != "" && TrimSpace(c.hash) == "" && c.end >= 1
             && (c.end <= |entries| ==> IsFingerprint(codec, entries, c.end, hash))
    ensures var c := state.checkpoint.value;
            Restored(codec, entries, state) ==
            if c.end <= |entries| then Digest(c.summary, c.end, hash, Some(c.(hash := hash))) else Digest("", 0, "", None)
  {
    EmptyIsBlank();
    hide TrimSpace, NormalizeCompacted, Contents;
  }

  /** A record from before there were checkpoints keeps its summary, unless its fingerprint is of something else. */
  lemma OldRestores(codec: Codec, entries: seq<Entry>, state: InitialState, count: int, hash: string)
    requires state.checkpoint == None && TrimSpace(state.summary) != "" && IsFingerprint(codec, entries, count, hash)
    requires count == if state.compacted < 1 then 1 else if state.compacted > |entries| then |entries| else state.compacted
    ensures Restored(codec, entries, state) ==
            if TrimSpace(state.sourceHash) == "" || state.sourceHash == hash then Digest(state.summary, count, hash, None)
            else Digest("", 0, "", None)
  {
    EmptyIsBlank();
    assert |Contents(entries)| == |entries|;
    hide TrimSpace, Contents;
  }

  /** What is held about the compaction stays right after an append exactly when its prefixes are inside the history. */
  lemma DigestAfterAppend(codec: Codec, entries: seq<Entry>, entry: Entry, d: Digest)
    requires DigestFits(codec, entries, d)
    ensures DigestFits(codec, entries + [entry], d) <==> SurvivesAppend(codec, entries, entry, d)
  {
    EmptyIsBlank();
    hide TrimSpace, Matches, SourceHash, Collides, EndsWithin;
    if TrimSpace(d.summary) != "" {
      SourceHashAfterAppend(codec, entries, entry, d.compacted);
    }
    if d.checkpoint.Some? {
      MatchesAfterAppend(codec, entries, entry, d.checkpoint.value);
    }
  }

  // ---- A legacy checkpoint that reaches beyond the history ----

  /** Two messages, and a version-0 checkpoint about five with the fingerprint of the two. */
  function Overlong(sourceHash: string): InitialState {
    var text := (sequence: int) => Entry("m", sequence, Some(sequence), SystemText("hello"), NO_SOURCE);
    InitialState("A", 2, sourceHash, Some(Checkpoint(0, 0, 5, "two", "A")), [text(1), text(2)])
  }

  function CountingCodec(): Codec {
    Codec((traits: seq<Trait>) => if |traits| == 2 then "two" else "other", (text: string) => false)
  }

  lemma OverlongRestored(sourceHash: string)
    requires sourceHash == "" || sourceHash == "stale"
    ensures var state := Overlong(sourceHash);
            && Identified(state.entries)
            && Restored(CountingCodec(), state.entries, state) ==
               (if sourceHash == "" then Digest("A", 5, "two", state.checkpoint) else Digest("", 0, "", state.checkpoint))
            && TrimSpace("A") == "A" && TrimSpace("two") == "two"
  {
    var state := Overlong(sourceHash);
    TrimSpaceFixesTrimmed("A");
    TrimSpaceFixesTrimmed("two");
    TrimSpaceFixesTrimmed("stale");
    hide TrimSpace;
    assert state.entries[..2] == state.entries;
    assert SourceHash(CountingCodec(), state.entries, 5) == "two";
  }

  lemma OverlongBreaks(sourceHash: string, entry: Entry)
    requires sourceHash == "" || sourceHash == "stale"
    ensures var state := Overlong(sourceHash);
            !SurvivesAppend(CountingCodec(), state.entries, entry, Restored(CountingCodec(), state.entries, state))
  {
    var state := Overlong(sourceHash);
    OverlongRestored(sourceHash);
    hide TrimSpace, Restored;
    assert |Traits(state.entries + [entry])| == 3 && |Traits(state.entries)| == 2;
    assert !Collides(CountingCodec(), state.entries, entry);
  }

  method OverlongSession(sourceHash: string) returns (session: Session)
    requires sourceHash == "" || sourceHash == "stale"
    ensures fresh(session) && session.Valid() && session.codec == CountingCodec()
    ensures session.entries == Overlong(sourceHash).entries
    ensures session.CurrentDigest() == Restored(CountingCodec(), session.entries, Overlong(sourceHash))
  {
    OverlongRestored(sourceHash);
    assert Overlong(sourceHash).entries != [];
    hide *;
    session := new Session.FromState(CountingCodec(), Overlong(sourceHash), (i, entry) => "id", SystemText("system"));
  }

  /**
   * The failing side, reached from stored records: with no stored fingerprint the session restores a summary of
   * five messages out of two and the next message invalidates it; with a stale one it drops the summary and the
   * count, keeps the checkpoint, and the next message invalidates that.
   */
  method OverlongCheckpoint(sourceHash: string) returns (session: Session)
    requires sourceHash == "" || sourceHash == "stale"
    ensures fresh(session) && !session.Valid()
    ensures sourceHash == "" ==> TrimSpace(session.summary) != "" && session.compacted == 5
    ensures sourceHash == "stale" ==> session.summary == "" && session.compacted == 0 && session.checkpoint.Some?
    ensures |session.entries| == 3
  {
    var state := Overlong(sourceHash);
    OverlongRestored(sourceHash);
    assert |state.entries| == 2 && state.checkpoint.Some?;
    hide TrimSpace, Restored, SurvivesAppend, Overlong, CountingCodec, Session.Valid, Identified;
    session := OverlongSession(sourceHash);
    session.AppendMessage(Entry("m", 3, Some(3), SystemText("more"), NO_SOURCE), 3, "id");
    OverlongBreaks(sourceHash, session.entries[2]);
  }

  // ---- The context the model is sent ----

  function Contents(entries: seq<Entry>): seq<Message> {
    seq(|entries|, i requires 0 <= i < |entries| => entries[i].message)
  }

  function SummaryLimit(windowK: int): int {
    var limit := NormalizeWindowK(windowK) * 1000 / 4;
    if limit > 1024 then 1024 else if limit < 256 then 256 else limit
  }

  /** The replaced messages a person would count: those that nobody generated, except the system message in front. */
  ghost function Shown(messages: seq<Message>, limit: nat): set<int>
    requires limit <= |messages|
  {
    set i | 0 <= i < limit && messages[i].reason == "" && (i == 0 ==> messages[i].role != System)
  }

  method DisplayCompactedMessages(messages: seq<Message>, compacted: int) returns (count: nat)
    ensures count == |Shown(messages, NormalizeCompacted(messages, compacted))|
  {
    var limit := NormalizeCompacted(messages, compacted);
    count := 0;
    var index := 0;
    while index < limit
      invariant 0 <= index <= limit && count == |Shown(messages, index)|
    {
      var m := messages[index];
      ghost var shown := Shown(messages, index);
      index := index + 1;
      if (index == 1 && m.role == System && !IsSynthetic(m)) || IsSynthetic(m) {
        assert Shown(messages, index) == shown;
        continue;
      }
      assert Shown(messages, index) == shown + {index - 1};
      count := count + 1;
    }
  }

  /** A checkpoint counts only when it matches the history; the compacted count is reset with it. */
  function UsedCount(codec: Codec, entries: seq<Entry>, c: Checkpoint, compacted: int): int {
    if Matches(codec, entries, c) then compacted else 0
  }

  function UsedSummary(codec: Codec, entries: seq<Entry>, c: Checkpoint): string {
    if Matches(codec, entries, c) then TrimSpace(c.summary) else ""
  }

  /** A quarter of the window, but room for a short summary in any case. */
  function Quarter(windowK: int): int {
    if windowK == 1 then 256 else if windowK <= 0 then 4000 else 250 * windowK
  }

  lemma SummaryFits(text: string, windowK: int)
    requires TrimSpace(text) == text
    ensures forall r :: IsTruncation(text, SummaryLimit(windowK), r) ==>
              && Estimate(r) <= 1024 && Estimate(r) <= Quarter(windowK)
              && (Estimate(text) <= 1024 && Estimate(text) <= Quarter(windowK) ==> r == text)
  {
    forall r | IsTruncation(text, SummaryLimit(windowK), r) ensures Estimate(r) <= SummaryLimit(windowK) {
      TruncationFits(text, SummaryLimit(windowK), r);
    }
    hide TrimSpace, HasCut, Estimate;
  }

  method BuildSnapshot(
      codec: Codec, entries: seq<Entry>, c: Checkpoint, compacted: int, windowK: int, reserved: int, fixed: seq<string>)
    returns (info: Info, selected: seq<Message>, ghost summary: string, ghost from: nat)
    ensures IsTruncation(UsedSummary(codec, entries, c), SummaryLimit(windowK), summary)
    ensures var messages := Contents(entries);
            var base := Base(messages, summary, fixed);
            var recent := Recent(messages, UsedCount(codec, entries, c, compacted));
            var chunks := ChunksFrom(recent, 0);
            && IsWindow(base, chunks, Budget(windowK, reserved), from)
            && selected == base + Flatten(chunks[from..])
            && (info.truncated <==> Tokens(base + recent) > Budget(windowK, reserved))
    ensures info.selectedTokens == Tokens(selected)
    ensures var messages := Contents(entries);
            info.compactedMessages == |Shown(messages, NormalizeCompacted(messages, UsedCount(codec, entries, c, compacted)))|
    ensures info.hasSummary <==> UsedSummary(codec, entries, c) != ""
    ensures UsedSummary(codec, entries, c) != "" ==> TrimSpace(summary) != "" && Summarized(selected, summary)
    ensures Estimate(summary) <= 1024 && Estimate(summary) <= Quarter(windowK)
    ensures Estimate(UsedSummary(codec, entries, c)) <= 1024 && Estimate(UsedSummary(codec, entries, c)) <= Quarter(windowK)
            ==> summary == UsedSummary(codec, entries, c)
  {
    SummaryFits(UsedSummary(codec, entries, c), windowK);
    SummaryKept(UsedSummary(codec, entries, c), SummaryLimit(windowK));
    hide Matches, TrimSpace, IsTruncation, Base, Recent, IsWindow, ChunksFrom, Tokens, IsSummaryOf, AreTexts, Texts, Budget;
    var messages := Contents(entries);
    var checkpointSummary, count := c.summary, compacted;
    if !Matches(codec, entries, c) {
      checkpointSummary, count := "", 0;
      EmptyIsBlank();
    }
    var text := TruncateTextToTokens(TrimSpace(checkpointSummary), SummaryLimit(windowK));
    summary := text;
    var base, recent := BuildBaseAndRecent(messages, text, count, fixed);
    var tokens := EstimateTextTokens(text);
    EstimateNatural(text);
    var shown := DisplayCompactedMessages(messages, count);
    info, selected, from := AnalyzePrepared(
      base, recent, messages, windowK, text != "", tokens, shown, reserved);
    assert TrimSpace(text) != "" ==> selected[|base| - 1] == base[|base| - 1];
  }

  lemma EstimateNatural(text: string)
    ensures Estimate(text) >= 0
  {
  }

  /** Shortening to the limit neither invents nor loses a summary. */
  lemma SummaryKept(text: string, n: int)
    requires n >= 1
    ensures forall r :: IsTruncation(text, n, r) ==> (TrimSpace(r) != "" <==> TrimSpace(text) != "") && (r != "" <==> TrimSpace(text) != "")
  {
    EmptyIsBlank();
    forall r | IsTruncation(text, n, r) ensures (TrimSpace(r) != "" <==> TrimSpace(text) != "") && (r != "" <==> TrimSpace(text) != "") {
      if TrimSpace(text) != "" {
        TruncationKeepsContent(text, n, r);
      }
    }
  }

  /**
   * In the context that is built, whatever the checkpoint and the window, compacted history is
   * represented exactly when the checkpoint's summary has text or nothing was compacted.
   */
  lemma SnapshotRepresentsHistory(
      codec: Codec, entries: seq<Entry>, c: Checkpoint, compacted: int, windowK: int, fixed: seq<string>, summary: string)
    requires IsTruncation(UsedSummary(codec, entries, c), SummaryLimit(windowK), summary)
    requires forall m :: m in SystemPart(Contents(entries)) ==> m.reason != "compaction_summary"
    ensures var messages := Contents(entries);
            LeftOut(messages, UsedCount(codec, entries, c, compacted)) == [] || Summarized(Base(messages, summary, fixed), summary)
            <==> TrimSpace(c.summary) != "" || compacted <= 1 || |entries| <= 1
  {
    var used := UsedSummary(codec, entries, c);
    SummaryKept(used, SummaryLimit(windowK));
    TrimSpaceFixesTrimmed(c.summary);
    TrimSpaceFixesTrimmed(TrimSpace(c.summary));
    EmptyIsBlank();
    hide TrimSpace, LeftOut, Summarized, Base, Validate, LegacyMatches;
    LeftOutIsSummarized(Contents(entries), summary, UsedCount(codec, entries, c, compacted), fixed);
  }
}
