/** Names under which MCP tools are shown to models: made of allowed characters, short, and distinct. */
module ToolNames {
  import opened Text

  // ---- Decimal numbers ----

  function Digit(n: nat): char
    requires n < 10
  {
    "0123456789"[n]
  }

  function Decimal(n: nat): (digits: string)
    ensures digits != ""
    ensures forall c :: c in digits ==> '0' <= c <= '9'
  {
    if n < 10 then [Digit(n)] else Decimal(n / 10) + [Digit(n % 10)]
  }

  function Value(digits: string): int {
    if digits == "" then 0
    else 10 * Value(digits[..|digits| - 1]) + (digits[|digits| - 1] as int - '0' as int)
  }

  lemma {:induction false} DecimalHasValue(n: nat)
    ensures Value(Decimal(n)) == n
  {
    if n < 10 {
      assert Decimal(n)[..0] == "";
    } else {
      DecimalHasValue(n / 10);
      assert Decimal(n)[..|Decimal(n)| - 1] == Decimal(n / 10);
    }
  }

  function Power10(d: nat): nat {
    if d == 0 then 1 else 10 * Power10(d - 1)
  }

  lemma {:induction false} DecimalIsShort(n: nat, d: nat)
    requires 1 <= d && n < Power10(d)
    ensures |Decimal(n)| <= d
  {
    if n >= 10 {
      DecimalIsShort(n / 10, d - 1);
    }
  }

  // ---- Candidates for a taken name ----

  /** One more than the largest Go `int`. */
  const INT_LIMIT := 0x8000_0000_0000_0000

  lemma IntLimitIsShort()
    ensures INT_LIMIT < Power10(19)
  {
    assert Power10(3) == 1_000;
    assert Power10(6) == 1_000_000;
    assert Power10(9) == 1_000_000_000;
    assert Power10(12) == 1_000_000_000_000;
    assert Power10(15) == 1_000_000_000_000_000;
    assert Power10(17) == 100_000_000_000_000_000;
  }

  predicate IsEdge(c: char) {
    c == '_' || c == '-'
  }

  function Suffix(k: nat): (suffix: string)
    requires k < INT_LIMIT
    ensures 2 <= |suffix| <= 20 && suffix == "_" + Decimal(k)
  {
    IntLimitIsShort();
    DecimalIsShort(k, 19);
    "_" + Decimal(k)
  }

  /** `base` with a number behind it, cut to 64 characters. */
  function Candidate(base: string, k: nat): (name: string)
    requires k < INT_LIMIT
    ensures |name| <= 64
  {
    var suffix := Suffix(k);
    var maxBase := 64 - |suffix|;
    (if |base| > maxBase then Trim(base[..maxBase], IsEdge) else base) + suffix
  }

  lemma LastUnderscore(p: string, d: string)
    requires '_' !in d
    ensures var s := p + "_" + d;
            s[|p|] == '_' && forall i :: |p| < i < |s| ==> s[i] != '_'
  {
  }

  /** What stands behind the last underscore is determined by the whole. */
  lemma LastPartUnique(p: string, d: string, q: string, e: string)
    requires p + "_" + d == q + "_" + e && '_' !in d && '_' !in e
    ensures d == e
  {
    var s := p + "_" + d;
    LastUnderscore(p, d);
    LastUnderscore(q, e);
    assert |p| == |q|;
    assert s[|p| + 1..] == d && s[|q| + 1..] == e;
  }

  lemma CandidatesDiffer(base: string, j: nat, k: nat)
    requires j < INT_LIMIT && k < INT_LIMIT && Candidate(base, j) == Candidate(base, k)
    ensures j == k
  {
    var p := Candidate(base, j)[..|Candidate(base, j)| - |Suffix(j)|];
    var q := Candidate(base, k)[..|Candidate(base, k)| - |Suffix(k)|];
    hide Trim;
    assert Candidate(base, j) == p + "_" + Decimal(j);
    assert Candidate(base, k) == q + "_" + Decimal(k);
    LastPartUnique(p, Decimal(j), q, Decimal(k));
    DecimalHasValue(j);
    DecimalHasValue(k);
  }

  // ---- Unique names ----

  ghost predicate Taken(used: map<string, nat>, base: string, k: nat) {
    k < INT_LIMIT && Candidate(base, k) in used
  }

  ghost predicate AllTaken(used: map<string, nat>, base: string, end: nat) {
    forall k :: 2 <= k < end ==> Taken(used, base, k)
  }

  /** All numbered names up to the one last given out for a base are taken, so nothing is skipped by starting behind it. */
  ghost predicate Dense(used: map<string, nat>) {
    forall b :: b in used ==> 1 <= used[b] && AllTaken(used, b, used[b] + 1)
  }

  ghost function Candidates(base: string, end: nat): set<string>
    requires 2 <= end <= INT_LIMIT
  {
    if end == 2 then {} else Candidates(base, end - 1) + {Candidate(base, end - 1)}
  }

  lemma {:induction false} CandidatesCount(base: string, end: nat)
    requires 2 <= end <= INT_LIMIT
    ensures forall n :: n in Candidates(base, end) ==> exists k :: 2 <= k < end && n == Candidate(base, k)
    ensures |Candidates(base, end)| == end - 2
  {
    hide Candidate;
    if end > 2 {
      CandidatesCount(base, end - 1);
      if Candidate(base, end - 1) in Candidates(base, end - 1) {
        var k :| 2 <= k < end - 1 && Candidate(base, end - 1) == Candidate(base, k);
        CandidatesDiffer(base, k, end - 1);
      }
    }
  }

  lemma CardinalityOfSubset(a: set<string>, b: set<string>)
    requires a <= b
    ensures |a| <= |b|
  {
    assert b == a + (b - a);
  }

  /** Distinct numbers give distinct names, so no more numbers are taken in a row than there are names. */
  lemma NumbersRunOut(used: map<string, nat>, base: string, end: nat)
    requires 2 <= end && AllTaken(used, base, end)
    ensures end <= |used| + 2
  {
    hide Candidate;
    assert end > 2 ==> Taken(used, base, end - 1);
    CandidatesCount(base, end);
    forall n | n in Candidates(base, end) ensures n in used {
      var k :| 2 <= k < end && n == Candidate(base, k);
      assert Taken(used, base, k);
    }
    CardinalityOfSubset(Candidates(base, end), used.Keys);
    assert |used.Keys| == |used|;
  }

  /** `base` itself when it is free, else `base` with the smallest number from 2 that makes it free. */
  method UniqueToolName(base: string, used: map<string, nat>) returns (name: string, used': map<string, nat>)
    requires Dense(used) && |used| + 2 < INT_LIMIT
    ensures name !in used && used'.Keys == used.Keys + {name} && Dense(used')
    ensures base !in used ==> name == base
    ensures base in used ==> exists k :: 2 <= k < INT_LIMIT && name == Candidate(base, k) && AllTaken(used, base, k)
  {
    hide Candidate, Dense;
    if base !in used {
      name, used' := base, used[base := 1];
      KeepsDense(used, used');
      return;
    }
    DenseAt(used, base);
    var sequence := used[base] + 1;
    NumbersRunOut(used, base, sequence);
    while true
      invariant used[base] < sequence <= |used| + 2
      invariant AllTaken(used, base, sequence)
      decreases |used| + 2 - sequence
    {
      var candidate := Candidate(base, sequence);
      if candidate !in used {
        name, used' := candidate, used[base := sequence][candidate := 1];
        DenseAfter(used, base, sequence);
        return;
      }
      assert Taken(used, base, sequence);
      sequence := sequence + 1;
      NumbersRunOut(used, base, sequence);
    }
  }

  lemma DenseAt(used: map<string, nat>, base: string)
    requires Dense(used) && base in used
    ensures 1 <= used[base] && AllTaken(used, base, used[base] + 1)
  {
  }

  lemma KeepsDense(used: map<string, nat>, used': map<string, nat>)
    requires Dense(used) && used.Keys <= used'.Keys
    requires forall b :: b in used' ==> used'[b] == if b in used then used[b] else 1
    ensures Dense(used')
  {
    hide Candidate;
    forall b | b in used' ensures AllTaken(used', b, used'[b] + 1) {
      forall k | 2 <= k <= used'[b] ensures Taken(used', b, k) {
        assert Taken(used, b, k);
      }
    }
  }

  lemma DenseAfter(used: map<string, nat>, base: string, sequence: nat)
    requires Dense(used) && base in used && 1 <= sequence < INT_LIMIT && Candidate(base, sequence) !in used
    requires AllTaken(used, base, sequence)
    ensures Dense(used[base := sequence][Candidate(base, sequence) := 1])
  {
    hide Candidate;
    var used' := used[base := sequence][Candidate(base, sequence) := 1];
    forall b | b in used' ensures AllTaken(used', b, used'[b] + 1) {
      forall k | 2 <= k <= used'[b] ensures Taken(used', b, k) {
        if b != base {
          assert Taken(used, b, k);
        } else if k < sequence {
          assert Taken(used, base, k);
        }
      }
    }
  }

  // ---- Names made of a server and a tool ----

  predicate IsAllowed(c: char) {
    'A' <= c <= 'Z' || 'a' <= c <= 'z' || '0' <= c <= '9' || c == '_' || c == '-'
  }

  predicate AllAllowed(s: string) {
    forall c :: c in s ==> IsAllowed(c)
  }

  /** Replaces each longest run of characters that are not allowed by one underscore. */
  function ReplaceUnsupported(s: string): (r: string)
    ensures AllAllowed(r)
    ensures AllAllowed(s) ==> r == s
  {
    if s == "" then ""
    else if IsAllowed(s[0]) then [s[0]] + ReplaceUnsupported(s[1..])
    else if |s| > 1 && !IsAllowed(s[1]) then ReplaceUnsupported(s[1..])
    else "_" + ReplaceUnsupported(s[1..])
  }

  /** Allowed characters, at most `max` of them, and neither an underscore nor a dash at an end. */
  predicate IsPart(s: string, max: nat) {
    && (forall c :: c in s ==> 'A' <= c <= 'Z' || 'a' <= c <= 'z' || '0' <= c <= '9' || c in "_-")
    && |s| <= max && (s == "" || (s[0] !in "_-" && s[|s| - 1] !in "_-"))
  }

  lemma {:induction false} TrimLeftTakes(s: string, cut: char -> bool)
    ensures forall c :: c in TrimLeft(s, cut) ==> c in s
  {
    if s != "" && cut(s[0]) {
      TrimLeftTakes(s[1..], cut);
    }
  }

  /** Trimming invents no characters and leaves alone what has nothing to trim. */
  lemma TrimTakes(s: string, cut: char -> bool)
    ensures forall c :: c in Trim(s, cut) ==> c in s
    ensures s == "" || (!cut(s[0]) && !cut(s[|s| - 1])) ==> Trim(s, cut) == s
  {
    TrimLeftTakes(s, cut);
  }

  function SanitizeToolNamePart(value: string, maxLength: nat): string {
    var clean := Trim(ReplaceUnsupported(TrimSpace(value)), IsEdge);
    if maxLength > 0 && |clean| > maxLength then Trim(clean[..maxLength], IsEdge) else clean
  }

  lemma SanitizedIsPart(value: string, maxLength: nat)
    requires maxLength > 0
    ensures IsPart(SanitizeToolNamePart(value, maxLength), maxLength)
  {
    var replaced := ReplaceUnsupported(TrimSpace(value));
    var clean := Trim(replaced, IsEdge);
    var part := SanitizeToolNamePart(value, maxLength);
    TrimTakes(replaced, IsEdge);
    if |clean| > maxLength {
      TrimTakes(clean[..maxLength], IsEdge);
      assert forall c :: c in clean[..maxLength] ==> c in clean;
    }
    assert forall c :: c in part ==> IsAllowed(c);
    hide Trim, ReplaceUnsupported, AllAllowed;
  }

  /** Sanitizing changes nothing exactly when there is nothing to change, so doing it again changes nothing. */
  lemma SanitizeFixesParts(value: string, maxLength: nat)
    requires maxLength > 0
    ensures SanitizeToolNamePart(value, maxLength) == value <==> IsPart(value, maxLength)
    ensures SanitizeToolNamePart(SanitizeToolNamePart(value, maxLength), maxLength) == SanitizeToolNamePart(value, maxLength)
  {
    SanitizedIsPart(value, maxLength);
    PartIsFixed(SanitizeToolNamePart(value, maxLength), maxLength);
    if IsPart(value, maxLength) {
      PartIsFixed(value, maxLength);
    }
  }

  lemma PartIsFixed(part: string, maxLength: nat)
    requires maxLength > 0 && IsPart(part, maxLength)
    ensures SanitizeToolNamePart(part, maxLength) == part
  {
    TrimTakes(part, IsSpace);
    TrimTakes(part, IsEdge);
    assert part != "" ==> part[0] in part && part[|part| - 1] in part;
    assert forall c :: IsAllowed(c) ==> !IsSpace(c);
    hide Trim;
  }

  function ExposedToolName(server: string, tool: string): string {
    var s := SanitizeToolNamePart(server, 20);
    var t := SanitizeToolNamePart(tool, 36);
    "mcp_" + (if s == "" then "server" else s) + "_" + (if t == "" then "tool" else t)
  }

  /** Of clean parts the name is made as they are, server first; a part with nothing usable has a stand-in. */
  lemma ExposedNamesParts(server: string, tool: string)
    requires IsPart(server, 20) && IsPart(tool, 36)
    ensures ExposedToolName(server, tool) ==
            "mcp_" + (if server == "" then "server" else server) + "_" + (if tool == "" then "tool" else tool)
  {
    SanitizeFixesParts(server, 20);
    SanitizeFixesParts(tool, 36);
    hide SanitizeToolNamePart, IsPart;
  }

  /** Allowed characters stay as they are. */
  lemma {:induction false} AllowedStay(front: string, rest: string)
    requires forall k :: 0 <= k < |front| ==> IsAllowed(front[k])
    ensures ReplaceUnsupported(front + rest) == front + ReplaceUnsupported(rest)
  {
    hide *;
    if front == "" {
      assert front + rest == rest;
    } else {
      AllowedStay(front[1..], rest);
      AllowedFirst(front[0], front[1..] + rest);
      assert front + rest == [front[0]] + (front[1..] + rest);
      assert front + ReplaceUnsupported(rest) == [front[0]] + (front[1..] + ReplaceUnsupported(rest));
    }
  }

  lemma AllowedFirst(c: char, rest: string)
    requires IsAllowed(c)
    ensures ReplaceUnsupported([c] + rest) == [c] + ReplaceUnsupported(rest)
  {
    hide IsAllowed;
    assert ([c] + rest)[1..] == rest;
  }

  /** A whole run of characters that are not allowed becomes one underscore. */
  lemma {:induction false} RunBecomesOne(run: string, rest: string)
    requires run != "" && (forall k :: 0 <= k < |run| ==> !IsAllowed(run[k])) && (rest == "" || IsAllowed(rest[0]))
    ensures ReplaceUnsupported(run + rest) == "_" + ReplaceUnsupported(rest)
  {
    var all := run + rest;
    assert all[1..] == run[1..] + rest && !IsAllowed(all[0]);
    hide IsAllowed;
    if |run| > 1 {
      assert all[1] == run[1];
      RunBecomesOne(run[1..], rest);
    } else {
      assert all[1..] == rest;
      assert |all| > 1 ==> all[1] == rest[0];
    }
  }

  /** Accepted by model APIs as the name of a function: at most 64 letters, digits, underscores and dashes. */
  predicate IsToolName(name: string) {
    1 <= |name| <= 64 && forall c :: c in name ==> 'A' <= c <= 'Z' || 'a' <= c <= 'z' || '0' <= c <= '9' || c in "_-"
  }

  lemma ExposedIsToolName(server: string, tool: string)
    ensures var name := ExposedToolName(server, tool);
            IsToolName(name) && |name| <= 61 && HasPrefix(name, "mcp_")
  {
    SanitizedIsPart(server, 20);
    SanitizedIsPart(tool, 36);
    hide SanitizeToolNamePart, Trim;
    PartsMakeName(SanitizeToolNamePart(server, 20), SanitizeToolNamePart(tool, 36));
  }

  lemma PartsMakeName(s: string, t: string)
    requires IsPart(s, 20) && IsPart(t, 36)
    ensures var name := "mcp_" + (if s == "" then "server" else s) + "_" + (if t == "" then "tool" else t);
            IsToolName(name) && |name| <= 61 && HasPrefix(name, "mcp_")
  {
  }

  lemma EdgesCut(s: string) returns (i: nat, j: nat)
    ensures i <= j <= |s| && Trim(s, IsEdge) == s[i..j]
    ensures i < j ==> s[i] !in "_-" && s[j - 1] !in "_-"
    ensures forall l :: 0 <= l < |s| && !(i <= l < j) ==> s[l] in "_-"
  {
    i, j := TrimIs(s, IsEdge);
    hide Trim;
    forall l | 0 <= l < |s| && !(i <= l < j) ensures s[l] in "_-" {
      assert if l < i then s[..i][l] == s[l] else s[j..][l - j] == s[l];
    }
  }

  /** A name too long for its number is cut to what fits, and further while it would end, or begin, in a separator. */
  lemma CandidateIs(base: string, k: nat) returns (i: nat, j: nat)
    requires k < INT_LIMIT
    ensures var room := 63 - |Decimal(k)|;
            if |base| <= room then Candidate(base, k) == base + ("_" + Decimal(k))
            else
              && i <= j <= room && Candidate(base, k) == base[i..j] + ("_" + Decimal(k))
              && (i < j ==> base[i] !in "_-" && base[j - 1] !in "_-")
              && forall l :: 0 <= l < room && !(i <= l < j) ==> base[l] in "_-"
  {
    hide Trim, Decimal, IsEdge;
    var room := 64 - |Suffix(k)|;
    i, j := 0, 0;
    if |base| > room {
      i, j := EdgesCut(base[..room]);
      assert base[..room][i..j] == base[i..j];
    }
  }

  /** A number behind an accepted name gives an accepted name again. */
  lemma CandidateIsToolName(base: string, k: nat)
    requires IsToolName(base) && k < INT_LIMIT
    ensures IsToolName(Candidate(base, k))
  {
    var maxBase := 64 - |Suffix(k)|;
    if |base| > maxBase {
      TrimTakes(base[..maxBase], IsEdge);
    }
    hide Trim;
  }
}
