/** A session over its whole life: loaded, extended, compacted, cleared and restarted. */
module SessionRuns {
  import opened Text
  import opened Messages
  import opened ContextWindow
  import opened Compaction
  import opened SessionState

  /** What does not change: fingerprints and their codec, identities given to old messages, and the system prompt. */
  datatype Env = Env(codec: Codec, stableId: (nat, Entry) -> string, system: Message)

  datatype State = State(entries: seq<Entry>, digest: Digest)

  datatype Action =
    | Append(entry: Entry)
    | Compact(text: string, keepChunks: int)
    | Clear
    | Restart                    // from what the session itself has stored
    | Load(record: InitialState) // any record, also an old one

  // ---- Compaction ----

  /** Where compaction starts: behind the summary in use, or anew when that does not match the history. */
  function CompactFrom(codec: Codec, entries: seq<Entry>, d: Digest): int {
    if d.checkpoint.Some? then (if Matches(codec, entries, d.checkpoint.value) then d.checkpoint.value.end else 0)
    else if LegacyMatches(codec, entries, d.summary, d.compacted, d.hash) then d.compacted
    else 0
  }

  /** A checkpoint for a new summary; without a fingerprint it is a legacy one. */
  function NewCheckpoint(text: string, cutoff: int, hash: string): Checkpoint {
    Checkpoint(if TrimSpace(hash) == "" then 0 else CURRENT_VERSION, 0, cutoff, TrimSpace(hash), TrimSpace(text))
  }

  /** What a compaction leaves; it fails on a history too short or a summary that is not of the right form. */
  function Compacted(codec: Codec, entries: seq<Entry>, d: Digest, text: string, keepChunks: int): Option<Digest> {
    var from := CompactFrom(codec, entries, d);
    var cutoff := Cutoff(Contents(entries), from, keepChunks);
    var hash := SourceHash(codec, entries, cutoff);
    var c := NewCheckpoint(text, cutoff, hash);
    if cutoff == NormalizeCompacted(Contents(entries), from) || (c.version == CURRENT_VERSION && !Validate(codec, c)) then None
    else Some(Digest(text, cutoff, hash, Some(c)))
  }

  /** `CompactSession` and `SaveSummaryWithCheckpoint`; `text` is the model's summary, if it could make one. */
  method CompactSession(session: Session, text: Option<string>, keepChunks: int) returns (ok: bool)
    modifies session`summary, session`compacted, session`sourceHash, session`checkpoint
    ensures ok <==> text.Some? && Compacted(session.codec, session.entries, old(session.CurrentDigest()), text.value, keepChunks).Some?
    ensures session.CurrentDigest() ==
            if ok then Compacted(session.codec, session.entries, old(session.CurrentDigest()), text.value, keepChunks).value
            else old(session.CurrentDigest())
  {
    hide Matches, LegacyMatches, Cutoff, NormalizeCompacted, SourceHash, TrimSpace, Validate, Contents;
    var messages := Contents(session.entries);
    var from := session.compacted;
    if session.checkpoint.Some? {
      from := if Matches(session.codec, session.entries, session.checkpoint.value) then session.checkpoint.value.end else 0;
    } else if !LegacyMatches(session.codec, session.entries, session.summary, session.compacted, session.sourceHash) {
      from := 0;
    }
    var replaced, recent, cutoff := CompactSplit(messages, from, keepChunks);
    if |replaced| == 0 || text.None? {
      return false;
    }
    var hash := SourceHash(session.codec, session.entries, cutoff);
    var checkpoint := NewCheckpoint(text.value, cutoff, hash);
    if TrimSpace(hash) != "" && !Validate(session.codec, checkpoint) {
      return false;
    }
    session.summary, session.compacted, session.sourceHash, session.checkpoint := text.value, cutoff, hash, Some(checkpoint);
    ok := true;
  }

  // ---- Steps ----

  function RecordOf(s: State): InitialState {
    InitialState(s.digest.summary, s.digest.compacted, s.digest.hash, s.digest.checkpoint, s.entries)
  }

  function Loaded(env: Env, record: InitialState): State {
    var entries := if record.entries == [] then [Entry("", 0, None, env.system, NO_SOURCE)] else Normalized(record.entries, env.stableId);
    State(entries, Restored(env.codec, entries, record))
  }

  function GetOr(d: Option<Digest>, otherwise: Digest): Digest {
    if d.Some? then d.value else otherwise
  }

  ghost predicate Enabled(s: State, a: Action) {
    a.Append? ==> Increasing(s.entries + [a.entry])
  }

  function Apply(env: Env, s: State, a: Action): State {
    match a
    case Append(entry) => s.(entries := s.entries + [entry])
    case Compact(text, keepChunks) => s.(digest := GetOr(Compacted(env.codec, s.entries, s.digest, text, keepChunks), s.digest))
    case Clear => State(Normalized([Entry("", 0, None, env.system, NO_SOURCE)], env.stableId), Digest("", 0, "", None))
    case Restart => Loaded(env, RecordOf(s))
    case Load(record) => Loaded(env, record)
  }

  /** `Session.Valid` on values. */
  ghost predicate IsValid(env: Env, s: State) {
    DigestFits(env.codec, s.entries, s.digest) && Increasing(s.entries)
  }

  /** Fingerprints are hexadecimal digests. */
  ghost predicate Fingerprints(codec: Codec) {
    forall traits: seq<Trait> :: traits != [] ==> codec.hash(traits) != "" && Trimmed(codec.hash(traits))
  }

  // ---- What the program itself writes ----

  predicate IsBlank(d: Digest) {
    d.summary == "" && d.hash == "" && d.checkpoint == None
  }

  /** A record of a session that was never compacted, or one with a summary in order. */
  ghost predicate OwnRecord(codec: Codec, record: InitialState) {
    Stored(codec, record) || IsBlank(Digest(record.summary, record.compacted, record.sourceHash, record.checkpoint))
  }

  ghost predicate IsOwn(env: Env, s: State) {
    Increasing(s.entries) && s.entries != [] && OwnRecord(env.codec, RecordOf(s))
  }

  lemma HashIsFingerprint(codec: Codec, entries: seq<Entry>, cutoff: nat)
    requires Fingerprints(codec) && 0 < cutoff <= |entries|
    ensures var hash := SourceHash(codec, entries, cutoff); hash != "" && TrimSpace(hash) == hash
  {
    TrimSpaceFixesTrimmed(SourceHash(codec, entries, cutoff));
    assert |Traits(entries[..cutoff])| == cutoff;
    hide TrimSpace, Trimmed;
  }

  /** A compaction's summary stands for a prefix inside the history. */
  lemma CompactedIsStored(env: Env, s: State, text: string, keepChunks: int)
    requires Fingerprints(env.codec)
    ensures var d := Compacted(env.codec, s.entries, s.digest, text, keepChunks);
            d.Some? ==> Stored(env.codec, RecordOf(s.(digest := d.value)))
  {
    var d := Compacted(env.codec, s.entries, s.digest, text, keepChunks);
    if d.Some? {
      hide CompactFrom;
      assert |Contents(s.entries)| == |s.entries|;
      hide Contents, Cutoff;
      HashIsFingerprint(env.codec, s.entries, d.value.compacted);
      TrimSpaceFixesTrimmed(text);
      TrimSpaceFixesTrimmed(TrimSpace(text));
      hide TrimSpace, Trimmed, SourceHash;
    }
  }

  /**
   * A summary is taken exactly when more blocks than are kept lie behind the place where compaction starts and
   * the summary is of the right form.
   */
  lemma CompactionSucceeds(codec: Codec, entries: seq<Entry>, d: Digest, text: string, keepChunks: int)
    requires Fingerprints(codec)
    ensures var start := NormalizeCompacted(Contents(entries), CompactFrom(codec, entries, d));
            Compacted(codec, entries, d, text, keepChunks).Some? <==>
            && |ChunksFrom(Contents(entries), start)| > (if keepChunks <= 0 then 8 else keepChunks)
            && TrimSpace(text) != "" && codec.isJson(TrimSpace(text))
  {
    var from := CompactFrom(codec, entries, d);
    var cutoff := Cutoff(Contents(entries), from, keepChunks);
    CutoffKeeps(Contents(entries), from, keepChunks);
    assert |Contents(entries)| == |entries|;
    hide CompactFrom, Contents, ChunksFrom, Cutoff;
    TrimSpaceFixesTrimmed(text);
    TrimSpaceFixesTrimmed(TrimSpace(text));
    if cutoff > NormalizeCompacted(Contents(entries), from) {
      HashIsFingerprint(codec, entries, cutoff);
    }
    hide TrimSpace, Trimmed, SourceHash, NormalizeCompacted;
  }

  /** A successful compaction moves the count forward, past what was replaced before, and keeps some messages. */
  lemma CompactionAdvances(env: Env, s: State, text: string, keepChunks: int)
    requires Fingerprints(env.codec) && IsValid(env, s)
    ensures var d := Compacted(env.codec, s.entries, s.digest, text, keepChunks);
            d.Some? ==>
              && 1 < d.value.compacted < |s.entries|
              && d.value.compacted > (if s.digest.checkpoint.Some? then s.digest.checkpoint.value.end else s.digest.compacted)
  {
    CutoffKeeps(Contents(s.entries), CompactFrom(env.codec, s.entries, s.digest), keepChunks);
    assert |Contents(s.entries)| == |s.entries|;
    var d := s.digest;
    if d.checkpoint.None? && TrimSpace(d.summary) != "" && 0 < d.compacted && s.entries != [] {
      HashIsFingerprint(env.codec, s.entries, if d.compacted > |s.entries| then |s.entries| else d.compacted);
    }
    hide Contents, ChunksFrom, Cutoff, TrimSpace, Trimmed, Matches, Increasing;
  }

  lemma CompactedIsValid(env: Env, s: State, text: string, keepChunks: int)
    requires Fingerprints(env.codec) && IsValid(env, s)
    ensures IsValid(env, Apply(env, s, Compact(text, keepChunks)))
  {
    CompactedIsStored(env, s, text, keepChunks);
    hide Compacted, TrimSpace, Matches, SourceHash, Increasing;
  }

  lemma OwnIsValid(env: Env, s: State)
    requires IsOwn(env, s)
    ensures IsValid(env, s)
  {
    EmptyIsBlank();
    hide TrimSpace, Matches, SourceHash, Increasing;
  }

  lemma AppendKeepsOwn(env: Env, s: State, entry: Entry)
    requires IsOwn(env, s) && Increasing(s.entries + [entry])
    ensures IsOwn(env, s.(entries := s.entries + [entry]))
  {
    if Stored(env.codec, RecordOf(s)) {
      hide TrimSpace, Increasing;
      SourceHashStable(env.codec, s.entries, [entry], s.digest.compacted);
    }
  }

  /** Loading what the program has written restores it as it was. */
  lemma LoadedIsOwn(env: Env, record: InitialState)
    requires OwnRecord(env.codec, record)
    ensures IsOwn(env, Loaded(env, record))
    ensures Stored(env.codec, record) ==>
            Loaded(env, record).digest == Digest(record.summary, record.compacted, record.sourceHash, record.checkpoint)
  {
    var system := [Entry("", 0, None, env.system, NO_SOURCE)];
    NormalizedIsIncreasing(record.entries, env.stableId);
    var entries := Loaded(env, record).entries;
    if Stored(env.codec, record) {
      StoredStays(env.codec, entries, record);
      StoredSeesContent(env.codec, record, entries);
    } else {
      EmptyIsBlank();
      hide TrimSpace, Normalized;
    }
  }

  lemma StoredSeesContent(codec: Codec, record: InitialState, entries: seq<Entry>)
    requires Stored(codec, record) && SameContent(record.entries, entries)
    ensures Stored(codec, record.(entries := entries))
  {
    SourceHashSeesContent(codec, record.entries, entries, record.compacted);
    if record.checkpoint.Some? {
      MatchesSeesContent(codec, record.entries, entries, record.checkpoint.value);
    }
    hide TrimSpace, Matches, SourceHash;
  }

  lemma ApplyKeepsOwn(env: Env, s: State, a: Action)
    requires Fingerprints(env.codec) && IsOwn(env, s) && Enabled(s, a) && (a.Load? ==> OwnRecord(env.codec, a.record))
    ensures IsOwn(env, Apply(env, s, a))
  {
    match a {
      case Append(entry) => AppendKeepsOwn(env, s, entry);
      case Compact(text, keepChunks) => CompactedIsStored(env, s, text, keepChunks);
      case Clear =>
        NormalizedIsIncreasing([Entry("", 0, None, env.system, NO_SOURCE)], env.stableId);
      case Restart => LoadedIsOwn(env, RecordOf(s));
      case Load(record) => LoadedIsOwn(env, record);
    }
  }

  // ---- Runs ----

  /** From any record, through any actions. */
  ghost predicate IsRun(env: Env, first: InitialState, run: seq<State>, actions: seq<Action>) {
    && |run| == |actions| + 1 && run[0] == Loaded(env, first)
    && forall i :: 0 <= i < |actions| ==> Enabled(run[i], actions[i]) && run[i + 1] == Apply(env, run[i], actions[i])
  }

  lemma LoadedIsValid(env: Env, record: InitialState)
    ensures IsValid(env, Loaded(env, record))
  {
    NormalizedIsIncreasing(record.entries, env.stableId);
    RestoredFits(env.codec, Loaded(env, record).entries, record);
    hide DigestFits, Restored, Normalized;
  }

  /** Only an append can leave a session that is not valid, and exactly when what it holds does not survive it. */
  lemma ApplyKeepsValid(env: Env, s: State, a: Action)
    requires Fingerprints(env.codec) && IsValid(env, s) && Enabled(s, a)
    ensures IsValid(env, Apply(env, s, a)) <==> (a.Append? ==> SurvivesAppend(env.codec, s.entries, a.entry, s.digest))
  {
    match a {
      case Append(entry) => DigestAfterAppend(env.codec, s.entries, entry, s.digest);
      case Compact(text, keepChunks) => CompactedIsValid(env, s, text, keepChunks);
      case Clear =>
        NormalizedIsIncreasing([Entry("", 0, None, env.system, NO_SOURCE)], env.stableId);
        EmptyIsBlank();
        hide TrimSpace;
      case Restart => LoadedIsValid(env, RecordOf(s));
      case Load(record) => LoadedIsValid(env, record);
    }
  }

  /** Every message appended leaves what the session holds right. */
  ghost predicate AppendsSurvive(env: Env, run: seq<State>, actions: seq<Action>)
    requires |run| == |actions| + 1
  {
    forall i :: 0 <= i < |actions| && actions[i].Append? ==>
      SurvivesAppend(env.codec, run[i].entries, actions[i].entry, run[i].digest)
  }

  /**
   * From any record, old or new, and through any appends, compactions, clearings, restarts and further loads: the
   * session is valid throughout if and only if what it held survived every append.
   */
  lemma RunIsValid(env: Env, first: InitialState, run: seq<State>, actions: seq<Action>)
    requires Fingerprints(env.codec) && IsRun(env, first, run, actions)
    ensures (forall i :: 0 <= i < |run| ==> IsValid(env, run[i])) <==> AppendsSurvive(env, run, actions)
  {
    hide IsValid, SurvivesAppend, Apply, Enabled, Fingerprints;
    if AppendsSurvive(env, run, actions) {
      forall i | 0 <= i < |run| ensures IsValid(env, run[i]) {
        RunIsValidUpto(env, first, run, actions, i);
      }
    }
    if forall i :: 0 <= i < |run| ==> IsValid(env, run[i]) {
      forall i | 0 <= i < |actions| && actions[i].Append?
        ensures SurvivesAppend(env.codec, run[i].entries, actions[i].entry, run[i].digest)
      {
        assert IsValid(env, run[i]) && IsValid(env, run[i + 1]);
        ApplyKeepsValid(env, run[i], actions[i]);
      }
    }
  }

  lemma {:induction false} RunIsValidUpto(env: Env, first: InitialState, run: seq<State>, actions: seq<Action>, i: nat)
    requires Fingerprints(env.codec) && IsRun(env, first, run, actions) && AppendsSurvive(env, run, actions) && i < |run|
    ensures IsValid(env, run[i])
  {
    hide IsValid, SurvivesAppend, Apply, Enabled, Fingerprints;
    if i == 0 {
      LoadedIsValid(env, first);
    } else {
      RunIsValidUpto(env, first, run, actions, i - 1);
      ApplyKeepsValid(env, run[i - 1], actions[i - 1]);
    }
  }

  lemma {:induction false} OwnRunIsOwn(env: Env, first: InitialState, run: seq<State>, actions: seq<Action>, i: nat)
    requires Fingerprints(env.codec) && IsRun(env, first, run, actions) && i < |run|
    requires OwnRecord(env.codec, first) && forall j :: 0 <= j < |actions| && actions[j].Load? ==> OwnRecord(env.codec, actions[j].record)
    ensures IsOwn(env, run[i])
  {
    hide IsOwn, OwnRecord, Apply, Enabled, Fingerprints;
    if i == 0 {
      LoadedIsOwn(env, first);
    } else {
      OwnRunIsOwn(env, first, run, actions, i - 1);
      ApplyKeepsOwn(env, run[i - 1], actions[i - 1]);
    }
  }

  lemma OwnSummaryIsStored(env: Env, s: State)
    requires IsOwn(env, s) && TrimSpace(s.digest.summary) != ""
    ensures Stored(env.codec, RecordOf(s)) && 1 <= s.digest.compacted <= |s.entries|
    ensures Apply(env, s, Restart).digest == s.digest
  {
    EmptyIsBlank();
    LoadedIsOwn(env, RecordOf(s));
    hide TrimSpace, SourceHash, Matches, Increasing, Loaded;
  }

  /**
   * In a run over records the program wrote itself every state is valid; a summary in use always stands for a
   * prefix inside the history, and a restart changes nothing about it.
   */
  lemma OwnRunIsValid(env: Env, first: InitialState, run: seq<State>, actions: seq<Action>, i: nat)
    requires Fingerprints(env.codec) && IsRun(env, first, run, actions) && i < |run|
    requires OwnRecord(env.codec, first) && forall j :: 0 <= j < |actions| && actions[j].Load? ==> OwnRecord(env.codec, actions[j].record)
    ensures IsValid(env, run[i])
    ensures TrimSpace(run[i].digest.summary) != "" ==> 1 <= run[i].digest.compacted <= |run[i].entries|
    ensures TrimSpace(run[i].digest.summary) != "" && i < |actions| && actions[i] == Restart ==> run[i + 1].digest == run[i].digest
  {
    OwnRunIsOwn(env, first, run, actions, i);
    OwnIsValid(env, run[i]);
    if TrimSpace(run[i].digest.summary) != "" {
      OwnSummaryIsStored(env, run[i]);
    }
    hide TrimSpace, IsValid, IsOwn, OwnRecord, Apply, Enabled, Fingerprints;
  }

  lemma InUseStays(env: Env, s: State, a: Action)
    requires Fingerprints(env.codec) && IsOwn(env, s) && TrimSpace(s.digest.summary) != ""
    requires a.Append? || a.Compact? || a.Restart?
    ensures var d := Apply(env, s, a).digest;
            TrimSpace(d.summary) != "" && (d == s.digest || s.digest.compacted < d.compacted < |s.entries|)
  {
    OwnSummaryIsStored(env, s);
    OwnIsValid(env, s);
    if a.Compact? {
      CompactionAdvances(env, s, a.text, a.keepChunks);
      CompactedIsStored(env, s, a.text, a.keepChunks);
    }
    hide TrimSpace, IsValid, IsOwn, Matches, SourceHash, Compacted, Loaded, Fingerprints;
  }

  /**
   * Until the session is cleared or another record is loaded, a summary in use is only ever replaced by one that
   * stands for more of the history.
   */
  lemma {:induction false} SummaryOnlyGrows(env: Env, first: InitialState, run: seq<State>, actions: seq<Action>, i: nat, j: nat)
    requires Fingerprints(env.codec) && IsRun(env, first, run, actions) && i <= j < |run|
    requires OwnRecord(env.codec, first) && forall k :: 0 <= k < |actions| && actions[k].Load? ==> OwnRecord(env.codec, actions[k].record)
    requires TrimSpace(run[i].digest.summary) != "" && forall k :: i <= k < j ==> !actions[k].Clear? && !actions[k].Load?
    ensures TrimSpace(run[j].digest.summary) != ""
    ensures run[j].digest == run[i].digest || run[i].digest.compacted < run[j].digest.compacted
    decreases j
  {
    hide TrimSpace, IsOwn, OwnRecord, Apply, Enabled, Fingerprints;
    if i < j {
      SummaryOnlyGrows(env, first, run, actions, i, j - 1);
      OwnRunIsOwn(env, first, run, actions, j - 1);
      InUseStays(env, run[j - 1], actions[j - 1]);
    }
  }

  // ---- The session takes these steps ----

  ghost function StateOf(session: Session): State
    reads session
  {
    State(session.entries, session.CurrentDigest())
  }

  method CompactRefines(session: Session, env: Env, text: Option<string>, keepChunks: int) returns (ok: bool)
    requires session.codec == env.codec
    modifies session
    ensures if text.Some? then StateOf(session) == Apply(env, old(StateOf(session)), Compact(text.value, keepChunks))
            else StateOf(session) == old(StateOf(session))
  {
    hide Compacted;
    ok := CompactSession(session, text, keepChunks);
  }

  method ClearRefines(session: Session, env: Env)
    requires session.codec == env.codec
    modifies session
    ensures StateOf(session) == Apply(env, old(StateOf(session)), Action.Clear)
  {
    session.Clear(env.system, env.stableId);
  }

  /** A new process loads what the old session holds. */
  method RestartRefines(session: Session, env: Env) returns (next: Session)
    requires session.codec == env.codec
    ensures fresh(next) && next.Valid() && next.codec == env.codec
    ensures StateOf(next) == Apply(env, StateOf(session), Restart)
  {
    hide Restored, Normalized;
    var record := InitialState(session.summary, session.compacted, session.sourceHash, session.checkpoint, session.entries);
    next := new Session.FromState(env.codec, record, env.stableId, env.system);
  }

  method AppendRefines(session: Session, env: Env, entry: Entry, now: int, freshId: string) returns (ghost appended: Entry)
    requires session.codec == env.codec && session.Valid()
    modifies session`entries
    ensures appended.message == entry.message && Enabled(old(StateOf(session)), Append(appended))
    ensures StateOf(session) == Apply(env, old(StateOf(session)), Append(appended))
  {
    session.AppendMessage(entry, now, freshId);
    appended := session.entries[|old(session.entries)|];
  }
}
