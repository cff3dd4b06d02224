/** Compaction checkpoints: when a stored summary may stand for a prefix of the history. */
module Compaction {
  import opened Text
  import opened Messages

  /** The outside event a message comes from, if any. */
  datatype Source = Source(id: string, kind: string, task: string)

  const NO_SOURCE := Source("", "", "")

  /** A message of a session with its identity; `createdAt` is nanoseconds, absent for the zero time. */
  datatype Entry = Entry(id: string, sequence: int, createdAt: Option<int>, message: Message, source: Source)

  /** What a fingerprint sees of a message: neither its identity nor its time. */
  datatype Trait = Trait(message: Message, source: Source)

  function Traits(entries: seq<Entry>): seq<Trait> {
    seq(|entries|, i requires 0 <= i < |entries| => Trait(entries[i].message, entries[i].source))
  }

  /** A version-1 summary is JSON of a fixed shape; `isJson` says which texts decode. */
  datatype Codec = Codec(hash: seq<Trait> -> string, isJson: string -> bool)

  datatype Checkpoint = Checkpoint(version: int, start: int, end: int, hash: string, summary: string)

  const CURRENT_VERSION := 1

  /** The fingerprint of the prefix a summary replaces. */
  function SourceHash(codec: Codec, entries: seq<Entry>, compacted: int): string {
    if entries == [] || compacted <= 0 then ""
    else codec.hash(Traits(entries[..if compacted > |entries| then |entries| else compacted]))
  }

  predicate Validate(codec: Codec, c: Checkpoint) {
    && TrimSpace(c.summary) != ""
    && 0 <= c.version <= CURRENT_VERSION
    && 0 <= c.start < c.end
    && (c.version >= CURRENT_VERSION ==> TrimSpace(c.hash) != "" && codec.isJson(c.summary))
  }

  predicate LegacyMatches(codec: Codec, entries: seq<Entry>, summary: string, compacted: int, hash: string) {
    TrimSpace(summary) == "" || TrimSpace(hash) == "" || SourceHash(codec, entries, compacted) == TrimSpace(hash)
  }

  predicate Matches(codec: Codec, entries: seq<Entry>, c: Checkpoint) {
    if TrimSpace(c.summary) == "" then true
    else if c.version == 0 then LegacyMatches(codec, entries, c.summary, c.end, c.hash)
    else
      && Validate(codec, c)
      && c.start == 0 && c.end <= |entries|
      && SourceHash(codec, entries, c.end) == TrimSpace(c.hash)
  }

  lemma SourceHashStable(codec: Codec, entries: seq<Entry>, more: seq<Entry>, compacted: int)
    requires compacted <= |entries|
    ensures SourceHash(codec, entries + more, compacted) == SourceHash(codec, entries, compacted)
  {
    if compacted > 0 {
      assert (entries + more)[..compacted] == entries[..compacted];
    }
  }

  /** Messages with the same content have the same fingerprints, whatever their identity. */
  ghost predicate SameContent(a: seq<Entry>, b: seq<Entry>) {
    |a| == |b| && forall i :: 0 <= i < |a| ==> a[i].message == b[i].message && a[i].source == b[i].source
  }

  lemma SourceHashSeesContent(codec: Codec, a: seq<Entry>, b: seq<Entry>, compacted: int)
    requires SameContent(a, b)
    ensures SourceHash(codec, a, compacted) == SourceHash(codec, b, compacted)
  {
    var cut := if compacted > |a| then |a| else compacted;
    if 0 <= cut {
      assert Traits(a[..cut]) == Traits(b[..cut]);
    }
  }

  lemma MatchesSeesContent(codec: Codec, a: seq<Entry>, b: seq<Entry>, c: Checkpoint)
    requires SameContent(a, b)
    ensures Matches(codec, a, c) <==> Matches(codec, b, c)
  {
    SourceHashSeesContent(codec, a, b, c.end);
  }

  /** The history has the same fingerprint with one more message. */
  predicate Collides(codec: Codec, entries: seq<Entry>, entry: Entry) {
    codec.hash(Traits(entries + [entry])) == codec.hash(Traits(entries))
  }

  /** A fingerprint in use stays right exactly when its prefix was really there. */
  lemma SourceHashAfterAppend(codec: Codec, entries: seq<Entry>, entry: Entry, compacted: int)
    requires SourceHash(codec, entries, compacted) != ""
    ensures SourceHash(codec, entries + [entry], compacted) == SourceHash(codec, entries, compacted) <==>
            compacted <= |entries| || Collides(codec, entries, entry)
  {
    var longer := entries + [entry];
    if compacted <= |entries| {
      SourceHashStable(codec, entries, [entry], compacted);
    } else {
      assert longer[..|longer|] == longer && entries[..|entries|] == entries;
    }
  }

  /** Only a legacy checkpoint with a hash can speak about more messages than there are. */
  predicate EndsWithin(c: Checkpoint, length: nat) {
    TrimSpace(c.summary) == "" || c.version != 0 || TrimSpace(c.hash) == "" || c.end <= length
  }

  /** A matching checkpoint survives an append exactly when it ends within the history. */
  lemma MatchesAfterAppend(codec: Codec, entries: seq<Entry>, entry: Entry, c: Checkpoint)
    requires Matches(codec, entries, c)
    ensures Matches(codec, entries + [entry], c) <==> EndsWithin(c, |entries|) || Collides(codec, entries, entry)
  {
    hide TrimSpace, Collides;
    if TrimSpace(c.summary) != "" && TrimSpace(c.hash) != "" {
      if c.version != 0 {
        SourceHashStable(codec, entries, [entry], c.end);
      } else {
        SourceHashAfterAppend(codec, entries, entry, c.end);
      }
    }
  }

  /** Fingerprints that tell contents apart are equal exactly for prefixes of the same messages from the same sources. */
  lemma FingerprintsTellApart(codec: Codec, a: seq<Entry>, b: seq<Entry>, end: nat)
    requires forall x: seq<Trait>, y: seq<Trait> :: codec.hash(x) == codec.hash(y) ==> x == y
    requires 1 <= end <= |a| && end <= |b|
    ensures SourceHash(codec, a, end) == SourceHash(codec, b, end) <==> SameContent(a[..end], b[..end])
  {
    var x, y := Traits(a[..end]), Traits(b[..end]);
    assert codec.hash(x) == codec.hash(y) <==> x == y;
    if x == y {
      assert forall i :: 0 <= i < end ==> a[..end][i].message == x[i].message && a[..end][i].source == x[i].source;
      assert forall i :: 0 <= i < end ==> b[..end][i].message == y[i].message && b[..end][i].source == y[i].source;
    }
  }
}
