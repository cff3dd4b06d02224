/** Token estimates for text, and cutting a text down to an estimate. */
module TokenBudget {
  import opened Text

  /** Characters that count: ASCII, and everything else, white space aside. */
  function AsciiCount(s: string): nat {
    if s == "" then 0 else (if !IsSpace(s[0]) && s[0] <= '\U{7F}' then 1 else 0) + AsciiCount(s[1..])
  }

  function WideCount(s: string): nat {
    if s == "" then 0 else (if !IsSpace(s[0]) && s[0] > '\U{7F}' then 1 else 0) + WideCount(s[1..])
  }

  function Estimate(text: string): nat {
    var t := TrimSpace(text);
    if t == "" then 0
    else
      var tokens := (AsciiCount(t) + 3) / 4 + WideCount(t);
      if tokens == 0 then 1 else tokens
  }

  const MARKER := "\n[...context truncated...]\n"

  function Prefix(text: string, length: int): string
    requires 0 <= length <= |text|
  {
    text[..length]
  }

  function Suffix(text: string, length: int): string
    requires 0 <= length <= |text|
  {
    text[|text| - length..]
  }

  /** The longest prefix within a budget: what the binary search has to find. */
  ghost predicate IsLongestPrefix(text: string, n: int, length: int) {
    && 0 <= length <= |text|
    && Estimate(Prefix(text, length)) <= n
    && forall k :: length < k <= |text| ==> Estimate(Prefix(text, k)) > n
  }

  ghost predicate IsLongestSuffix(text: string, n: int, length: int) {
    && 0 <= length <= |text|
    && Estimate(Suffix(text, length)) <= n
    && forall k :: length < k <= |text| ==> Estimate(Suffix(text, k)) > n
  }

  // ---- The estimate as a measure: additive counts, rounded up once ----

  lemma {:induction false} CountsAdd(a: string, b: string)
    ensures AsciiCount(a + b) == AsciiCount(a) + AsciiCount(b)
    ensures WideCount(a + b) == WideCount(a) + WideCount(b)
  {
    if a == "" {
      assert a + b == b;
    } else {
      CountsAdd(a[1..], b);
      assert (a + b)[1..] == a[1..] + b;
    }
  }

  lemma {:induction false} TrimKeepsCounts(s: string)
    ensures AsciiCount(TrimLeft(s, IsSpace)) == AsciiCount(s) && WideCount(TrimLeft(s, IsSpace)) == WideCount(s)
    ensures AsciiCount(TrimRight(s, IsSpace)) == AsciiCount(s) && WideCount(TrimRight(s, IsSpace)) == WideCount(s)
    decreases |s|
  {
    if s != "" {
      TrimKeepsCounts(s[1..]);
      TrimKeepsCounts(s[..|s| - 1]);
      CountsAdd(s[..|s| - 1], [s[|s| - 1]]);
      assert s[..|s| - 1] + [s[|s| - 1]] == s;
      assert [s[|s| - 1]][1..] == "";
    }
  }

  /** The trims and the minimum of one token change nothing: the estimate is the counts, rounded up. */
  lemma EstimateIsCounts(text: string)
    ensures Estimate(text) == (AsciiCount(text) + 3) / 4 + WideCount(text)
  {
    TrimKeepsCounts(text);
    TrimKeepsCounts(TrimLeft(text, IsSpace));
    var t := TrimSpace(text);
    if t != "" {
      assert !IsSpace(t[0]);
      assert AsciiCount(t) + WideCount(t) >= 1;
    }
  }

  /** A piece of a text never costs more, and cutting a text never saves. */
  lemma EstimateSplits(a: string, b: string)
    ensures Estimate(a) <= Estimate(a + b) && Estimate(b) <= Estimate(a + b)
    ensures Estimate(a + b) <= Estimate(a) + Estimate(b)
  {
    EstimateIsCounts(a);
    EstimateIsCounts(b);
    EstimateIsCounts(a + b);
    CountsAdd(a, b);
  }

  /** A character repeated: four ASCII characters are a token, any other character is one, and white space is free. */
  lemma RepeatedCosts(c: char, n: nat)
    ensures Estimate(seq(n, i => c)) == if IsSpace(c) then 0 else if c as int < 128 then (n + 3) / 4 else n
  {
    EstimateIsCounts(seq(n, i => c));
    RepeatedCounts(c, n);
    hide Estimate, IsSpace;
  }

  lemma {:induction false} RepeatedCounts(c: char, n: nat)
    ensures AsciiCount(seq(n, i => c)) == if IsSpace(c) || c as int >= 128 then 0 else n
    ensures WideCount(seq(n, i => c)) == if IsSpace(c) || c as int < 128 then 0 else n
  {
    hide IsSpace;
    if n > 0 {
      RepeatedCounts(c, n - 1);
      assert seq(n, i => c)[1..] == seq(n - 1, i => c);
    }
  }

  lemma EstimateOfTrimmed(text: string)
    ensures Estimate(TrimSpace(text)) == Estimate(text)
  {
  }

  lemma Monotone(text: string, i: nat, j: nat)
    requires i <= j <= |text|
    ensures Estimate(Prefix(text, i)) <= Estimate(Prefix(text, j))
    ensures Estimate(Suffix(text, i)) <= Estimate(Suffix(text, j))
  {
    hide Estimate;
    var middle := text[i..j];
    assert Prefix(text, j) == Prefix(text, i) + middle;
    EstimateSplits(Prefix(text, i), middle);
    var middle' := text[|text| - j..|text| - i];
    assert Suffix(text, j) == middle' + Suffix(text, i);
    EstimateSplits(middle', Suffix(text, i));
  }

  // ---- The loops ----

  method EstimateTextTokens(text: string) returns (tokens: int)
    ensures tokens == Estimate(text)
  {
    var t := TrimSpace(text);
    if t == "" {
      return 0;
    }
    var ascii, nonAscii := 0, 0;
    var i := 0;
    while i < |t|
      invariant 0 <= i <= |t|
      invariant ascii + AsciiCount(t[i..]) == AsciiCount(t)
      invariant nonAscii + WideCount(t[i..]) == WideCount(t)
    {
      var r := t[i];
      assert t[i..][1..] == t[i + 1..];
      i := i + 1;
      if IsSpace(r) {
        continue;
      }
      if r <= '\U{7F}' {
        ascii := ascii + 1;
        continue;
      }
      nonAscii := nonAscii + 1;
    }
    tokens := (ascii + 3) / 4;
    tokens := tokens + nonAscii;
    if tokens == 0 {
      return 1;
    }
  }

  method TruncatePrefix(text: string, maxTokens: nat) returns (prefix: string)
    ensures IsLongestPrefix(text, maxTokens, |prefix|) && prefix == Prefix(text, |prefix|)
  {
    hide Estimate;
    var low, high := 0, |text|;
    EmptyCostsNothing(text);
    while low < high
      invariant 0 <= low <= high <= |text|
      invariant Estimate(Prefix(text, low)) <= maxTokens
      invariant forall k :: high < k <= |text| ==> Estimate(Prefix(text, k)) > maxTokens
    {
      var middle := (low + high + 1) / 2;
      var tokens := EstimateTextTokens(Prefix(text, middle));
      if tokens <= maxTokens {
        low := middle;
      } else {
        forall k | middle <= k <= |text| ensures Estimate(Prefix(text, k)) > maxTokens {
          Monotone(text, middle, k);
        }
        high := middle - 1;
      }
    }
    prefix := Prefix(text, low);
  }

  method TruncateSuffix(text: string, maxTokens: nat) returns (suffix: string)
    ensures IsLongestSuffix(text, maxTokens, |suffix|) && suffix == Suffix(text, |suffix|)
  {
    hide Estimate;
    var low, high := 0, |text|;
    EmptyCostsNothing(text);
    while low < high
      invariant 0 <= low <= high <= |text|
      invariant Estimate(Suffix(text, low)) <= maxTokens
      invariant forall k :: high < k <= |text| ==> Estimate(Suffix(text, k)) > maxTokens
    {
      var middle := (low + high + 1) / 2;
      var tokens := EstimateTextTokens(Suffix(text, middle));
      if tokens <= maxTokens {
        low := middle;
      } else {
        forall k | middle <= k <= |text| ensures Estimate(Suffix(text, k)) > maxTokens {
          Monotone(text, middle, k);
        }
        high := middle - 1;
      }
    }
    suffix := Suffix(text, low);
  }

  lemma EmptyCostsNothing(text: string)
    ensures Estimate(Prefix(text, 0)) == 0 && Estimate(Suffix(text, 0)) == 0
  {
  }

  /** A head and a tail, each as long as its share of the budget allows, with text missing between them. */
  ghost predicate IsCut(t: string, room: int, head: int, tail: int, r: string) {
    && 0 <= head && 0 <= tail && head + tail < |t|
    && IsLongestPrefix(t, room * 3 / 5, head)
    && IsLongestSuffix(t, room - Estimate(Prefix(t, head)), tail)
    && r == TrimSpace(Prefix(t, head)) + MARKER + TrimSpace(Suffix(t, tail))
  }

  ghost predicate HasCut(t: string, room: int, r: string) {
    exists head, tail :: IsCut(t, room, head, tail, r)
  }

  /**
   * What a shortened text is made of: an outright prefix when there is no room for
   * the marker, and otherwise a head and a tail around it.
   */
  ghost predicate IsTruncation(text: string, n: int, r: string) {
    var t := TrimSpace(text);
    if t == "" || n <= 0 then r == ""
    else if Estimate(t) <= n then r == t
    else if n <= Estimate(MARKER) + 2 then IsLongestPrefix(t, n, |r|) && r == Prefix(t, |r|)
    else HasCut(t, n - Estimate(MARKER), r)
  }

  method TruncateTextToTokens(text: string, maxTokens: int) returns (r: string)
    ensures IsTruncation(text, maxTokens, r)
  {
    hide Estimate, TrimSpace, IsLongestPrefix, IsLongestSuffix;
    var t := TrimSpace(text);
    if t == "" || maxTokens <= 0 {
      return "";
    }
    var tokens := EstimateTextTokens(t);
    if tokens <= maxTokens {
      return t;
    }
    var marker := MARKER;
    var markerTokens := EstimateTextTokens(marker);
    if maxTokens <= markerTokens + 2 {
      r := TruncatePrefix(t, maxTokens);
      return;
    }
    var contentBudget := maxTokens - markerTokens;
    var head := TruncatePrefix(t, contentBudget * 3 / 5);
    var headTokens := EstimateTextTokens(head);
    LongestFits(t, contentBudget * 3 / 5, |head|);
    var tail := TruncateSuffix(t, contentBudget - headTokens);
    LongestFits(t, contentBudget - headTokens, |tail|);
    r := TrimSpace(head) + marker + TrimSpace(tail);
    DisjointPieces(t, contentBudget, |head|, |tail|);
    assert IsCut(t, contentBudget, |head|, |tail|, r);
  }

  lemma LongestFits(t: string, n: int, k: int)
    ensures IsLongestPrefix(t, n, k) ==> 0 <= k <= |t| && Estimate(Prefix(t, k)) <= n
    ensures IsLongestSuffix(t, n, k) ==> 0 <= k <= |t| && Estimate(Suffix(t, k)) <= n
  {
  }

  /** A prefix and a suffix that together fit a budget the text exceeds cannot touch. */
  lemma DisjointPieces(t: string, budget: int, head: int, tail: int)
    requires 0 <= head <= |t| && 0 <= tail <= |t|
    requires Estimate(Prefix(t, head)) + Estimate(Suffix(t, tail)) <= budget < Estimate(t)
    ensures head + tail < |t|
  {
    hide Estimate;
    var rest := |t| - head;
    assert Prefix(t, head) + Suffix(t, rest) == t;
    EstimateSplits(Prefix(t, head), Suffix(t, rest));
    if rest <= tail {
      Monotone(t, rest, tail);
    }
  }

  /** A shortened text stays within its budget. */
  lemma TruncationFits(text: string, n: nat, r: string)
    requires IsTruncation(text, n, r)
    ensures Estimate(r) <= n
  {
    EmptyCostsNothing("");
    hide Estimate, TrimSpace, IsLongestPrefix, IsLongestSuffix;
    var t := TrimSpace(text);
    LongestFits(t, n, |r|);
    if t != "" && n > 0 && Estimate(t) > n > Estimate(MARKER) + 2 {
      var room := n - Estimate(MARKER);
      var h, k :| IsCut(t, room, h, k, r);
      LongestFits(t, room - Estimate(Prefix(t, h)), k);
      var head, tail := Prefix(t, h), Suffix(t, k);
      EstimateOfTrimmed(head);
      EstimateOfTrimmed(tail);
      EstimateSplits(TrimSpace(head), MARKER);
      EstimateSplits(TrimSpace(head) + MARKER, TrimSpace(tail));
    }
  }

  /** A text and a budget have one truncation. */
  lemma TruncationUnique(text: string, n: int, r: string, r': string)
    requires IsTruncation(text, n, r) && IsTruncation(text, n, r')
    ensures r == r'
  {
    hide Estimate, TrimSpace;
    var t := TrimSpace(text);
    if t != "" && n > 0 && Estimate(t) > n > Estimate(MARKER) + 2 {
      var room := n - Estimate(MARKER);
      var h, k :| IsCut(t, room, h, k, r);
      var h', k' :| IsCut(t, room, h', k', r');
      assert h == h';
      assert k == k';
    }
  }

  /** A text that says something still says something after it is cut to one token or more. */
  lemma TruncationKeepsContent(text: string, n: nat, r: string)
    requires IsTruncation(text, n, r) && n >= 1 && TrimSpace(text) != ""
    ensures TrimSpace(r) != ""
  {
    var t := TrimSpace(text);
    TrimSpaceFixesTrimmed(text);
    FirstCharacterCosts(t);
    MarkerCosts();
    hide Estimate, TrimSpace;
    if Estimate(t) > n {
      if n <= Estimate(MARKER) + 2 {
        assert |r| >= 1;
        Monotone(t, 1, |r|);
      } else {
        var h, k :| IsCut(t, n - Estimate(MARKER), h, k, r);
        EstimateSplits(TrimSpace(Prefix(t, h)), MARKER);
        EstimateSplits(TrimSpace(Prefix(t, h)) + MARKER, TrimSpace(Suffix(t, k)));
      }
    }
    CostsMeansContent(t);
    CostsMeansContent(r);
  }

  lemma FirstCharacterCosts(t: string)
    requires t != "" && Trimmed(t)
    ensures Estimate(Prefix(t, 1)) == 1 && Estimate(t) >= 1
  {
    assert Prefix(t, 1) == [t[0]] && [t[0]][1..] == "";
    EstimateIsCounts([t[0]]);
    EstimateIsCounts(t);
  }

  lemma MarkerCosts()
    ensures Estimate(MARKER) >= 1
  {
    NotBlank(MARKER, 1);
    hide TrimSpace, AsciiCount, WideCount;
  }

  lemma CostsMeansContent(r: string)
    requires Estimate(r) >= 1
    ensures TrimSpace(r) != ""
  {
  }

  function Copies(c: char, n: nat): (s: string)
    ensures |s| == n && forall i :: 0 <= i < n ==> s[i] == c
  {
    seq(n, i => c)
  }

  lemma CopiesCost(c: char, n: nat)
    requires !IsSpace(c) && c as int >= 128
    ensures Estimate(Copies(c, n)) == n && TrimSpace(Copies(c, n)) == Copies(c, n)
  {
    RepeatedCosts(c, n);
    TrimSpaceFixesTrimmed(Copies(c, n));
  }

  lemma PieceOfCopies(c: char, n: nat, k: int)
    requires !IsSpace(c) && c as int >= 128 && 0 <= k <= n
    ensures Prefix(Copies(c, n), k) == Suffix(Copies(c, n), k) == Copies(c, k)
    ensures Estimate(Copies(c, k)) == k && TrimSpace(Copies(c, k)) == Copies(c, k)
  {
    CopiesCost(c, k);
    hide Estimate, IsSpace, TrimSpace;
  }

  lemma LongestOfCopies(c: char, n: nat, budget: nat, length: int)
    requires !IsSpace(c) && c as int >= 128 && budget <= n
    requires IsLongestPrefix(Copies(c, n), budget, length) || IsLongestSuffix(Copies(c, n), budget, length)
    ensures length == budget
  {
    hide Estimate, IsSpace, TrimSpace, Prefix, Suffix;
    PieceOfCopies(c, n, length);
    PieceOfCopies(c, n, budget);
  }

  lemma CutOfCopies(c: char, n: nat, room: int, head: int, tail: int, r: string)
    requires !IsSpace(c) && c as int >= 128 && 0 < room <= n && IsCut(Copies(c, n), room, head, tail, r)
    ensures head == room * 3 / 5 && tail == room - head
    ensures r == Copies(c, head) + MARKER + Copies(c, tail)
  {
    hide IsSpace, Estimate, TrimSpace, IsLongestPrefix, IsLongestSuffix, Copies, Prefix, Suffix;
    LongestOfCopies(c, n, room * 3 / 5, head);
    PieceOfCopies(c, n, head);
    LongestOfCopies(c, n, room - head, tail);
    PieceOfCopies(c, n, tail);
  }

  /** Of a text of one-token characters three fifths of the room go to its head and all of the rest to its tail. */
  lemma RoomIsShared(c: char, n: nat, budget: nat, r: string)
    requires !IsSpace(c) && c as int >= 128 && Estimate(MARKER) + 2 < budget < n && IsTruncation(Copies(c, n), budget, r)
    ensures var room := budget - Estimate(MARKER);
            r == Copies(c, room * 3 / 5) + MARKER + Copies(c, room - room * 3 / 5)
  {
    hide IsSpace, Estimate, TrimSpace, IsCut, Copies, Prefix, IsLongestPrefix, AsciiCount, WideCount;
    PieceOfCopies(c, n, n);
    WholeText(Copies(c, n));
    var room := budget - Estimate(MARKER);
    var head, tail :| IsCut(Copies(c, n), room, head, tail, r);
    CutOfCopies(c, n, room, head, tail, r);
  }

  lemma WholeText(t: string)
    ensures Prefix(t, |t|) == t
  {
  }
}
