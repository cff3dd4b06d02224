/** String operations the program takes from Go's `strings`, `sort` and `unicode` packages. */
module Text {

  datatype Option<+T> = None | Some(value: T)

  /** `unicode.IsSpace`. */
  predicate IsSpace(c: char) {
    || '\U{9}' <= c <= '\U{D}'
    || c == ' ' || c == '\U{85}' || c == '\U{A0}' || c == '\U{1680}'
    || '\U{2000}' <= c <= '\U{200A}'
    || c == '\U{2028}' || c == '\U{2029}' || c == '\U{202F}' || c == '\U{205F}' || c == '\U{3000}'
  }

  function TrimLeft(s: string, cut: char -> bool): (r: string)
    ensures |r| <= |s|
    ensures r == "" || !cut(r[0])
  {
    if s != "" && cut(s[0]) then TrimLeft(s[1..], cut) else s
  }

  function TrimRight(s: string, cut: char -> bool): (r: string)
    ensures |r| <= |s| && r <= s
    ensures r == "" || !cut(r[|r| - 1])
  {
    if s != "" && cut(s[|s| - 1]) then TrimRight(s[..|s| - 1], cut) else s
  }

  function Trim(s: string, cut: char -> bool): (r: string)
    ensures |r| <= |s|
    ensures r == "" || (!cut(r[0]) && !cut(r[|r| - 1]))
  {
    TrimRight(TrimLeft(s, cut), cut)
  }

  function TrimSpace(s: string): string {
    Trim(s, IsSpace)
  }

  /** No white space at either end. */
  predicate Trimmed(s: string) {
    s == "" || (!IsSpace(s[0]) && !IsSpace(s[|s| - 1]))
  }

  lemma TrimSpaceFixesTrimmed(s: string)
    ensures Trimmed(TrimSpace(s))
    ensures Trimmed(s) <==> TrimSpace(s) == s
  {
  }

  predicate AllCut(s: string, cut: char -> bool) {
    forall i :: 0 <= i < |s| ==> cut(s[i])
  }

  lemma {:induction false} TrimLeftCuts(s: string, cut: char -> bool)
    ensures var i := |s| - |TrimLeft(s, cut)|; TrimLeft(s, cut) == s[i..] && AllCut(s[..i], cut)
  {
    if s != "" && cut(s[0]) {
      TrimLeftCuts(s[1..], cut);
    }
  }

  lemma {:induction false} TrimRightCuts(s: string, cut: char -> bool)
    ensures var j := |TrimRight(s, cut)|; TrimRight(s, cut) == s[..j] && AllCut(s[j..], cut)
  {
    if s != "" && cut(s[|s| - 1]) {
      TrimRightCuts(s[..|s| - 1], cut);
    }
  }

  /** Trimming takes away what is to be cut at both ends, all of it, and nothing else. */
  lemma TrimIs(s: string, cut: char -> bool) returns (i: nat, j: nat)
    ensures i <= j <= |s| && Trim(s, cut) == s[i..j]
    ensures AllCut(s[..i], cut) && AllCut(s[j..], cut)
    ensures i < j ==> !cut(s[i]) && !cut(s[j - 1])
  {
    var left := TrimLeft(s, cut);
    TrimLeftCuts(s, cut);
    TrimRightCuts(left, cut);
    i := |s| - |left|;
    j := i + |Trim(s, cut)|;
    assert left == s[i..];
    assert left[|Trim(s, cut)|..] == s[j..];
  }

  lemma {:induction false} TrimLeftKeeps(s: string, i: nat, cut: char -> bool)
    requires i < |s| && !cut(s[i])
    ensures TrimLeft(s, cut) != ""
  {
    if cut(s[0]) {
      TrimLeftKeeps(s[1..], i - 1, cut);
    }
  }

  lemma {:induction false} TrimRightKeeps(s: string, cut: char -> bool)
    requires s != "" && !cut(s[0])
    ensures TrimRight(s, cut) != ""
  {
    if cut(s[|s| - 1]) {
      TrimRightKeeps(s[..|s| - 1], cut);
    }
  }

  /** Text is not trimmed away. */
  lemma NotBlank(s: string, i: nat)
    requires i < |s| && !IsSpace(s[i])
    ensures TrimSpace(s) != ""
  {
    TrimLeftKeeps(s, i, IsSpace);
    TrimRightKeeps(TrimLeft(s, IsSpace), IsSpace);
  }

  /** Trimming the front does not see what is appended behind the first character it keeps. */
  lemma {:induction false} TrimLeftAppend(s: string, c: char, cut: char -> bool)
    requires cut(c)
    ensures TrimLeft(s + [c], cut) == if TrimLeft(s, cut) == "" then "" else TrimLeft(s, cut) + [c]
  {
    if s == "" {
      assert s + [c] == [c] && [c][1..] == "";
    } else if cut(s[0]) {
      TrimLeftAppend(s[1..], c, cut);
      assert (s + [c])[1..] == s[1..] + [c];
    }
  }

  /** White space behind a string is invisible to `TrimSpace`. */
  lemma TrimSpaceDropsBack(s: string, c: char)
    requires IsSpace(c)
    ensures TrimSpace(s + [c]) == TrimSpace(s)
  {
    TrimLeftAppend(s, c, IsSpace);
    var left := TrimLeft(s, IsSpace);
    if left != "" {
      assert (left + [c])[..|left|] == left;
    }
  }

  predicate HasPrefix(s: string, prefix: string) {
    prefix <= s
  }

  /** Puts one more character in front of a text given as lines. */
  function InFront(c: char, lines: seq<string>): seq<string>
    requires lines != []
  {
    if c == '\n' then [""] + lines else [[c] + lines[0]] + lines[1..]
  }

  /** `strings.Split(s, "\n")`. */
  function Split(s: string): (lines: seq<string>)
    ensures |lines| >= 1
    ensures forall line :: line in lines ==> '\n' !in line
  {
    if s == "" then [""] else InFront(s[0], Split(s[1..]))
  }

  /** Every line followed by a line feed. */
  function Unlines(lines: seq<string>): string {
    if lines == [] then "" else lines[0] + "\n" + Unlines(lines[1..])
  }

  lemma {:induction false} UnlinesAppend(a: seq<string>, b: seq<string>)
    ensures Unlines(a + b) == Unlines(a) + Unlines(b)
  {
    if a == [] {
      assert a + b == b;
    } else {
      UnlinesAppend(a[1..], b);
      assert (a + b)[1..] == a[1..] + b;
    }
  }

  lemma {:induction false} SplitOneLine(line: string, rest: string)
    requires '\n' !in line
    ensures Split(line + "\n" + rest) == [line] + Split(rest)
  {
    if line == "" {
      assert line + "\n" + rest == "\n" + rest;
      assert ("\n" + rest)[1..] == rest;
    } else {
      SplitOneLine(line[1..], rest);
      assert (line + "\n" + rest)[1..] == line[1..] + "\n" + rest;
      assert [line[0]] + line[1..] == line;
    }
  }

  /** Splitting undoes `Unlines`, apart from the empty string behind the last line feed. */
  lemma {:induction false} SplitUnlines(lines: seq<string>)
    requires forall line :: line in lines ==> '\n' !in line
    ensures Split(Unlines(lines)) == lines + [""]
  {
    if lines != [] {
      SplitUnlines(lines[1..]);
      SplitOneLine(lines[0], Unlines(lines[1..]));
      assert [lines[0]] + (lines[1..] + [""]) == lines + [""];
    }
  }

  lemma UnlinesInFront(c: char, lines: seq<string>)
    requires lines != []
    ensures Unlines(InFront(c, lines)) == [c] + Unlines(lines)
  {
  }

  lemma {:induction false} UnlinesSplit(s: string)
    ensures Unlines(Split(s)) == s + "\n"
  {
    if s == "" {
      assert Unlines([""]) == "" + "\n" + Unlines([]);
    } else {
      UnlinesSplit(s[1..]);
      UnlinesInFront(s[0], Split(s[1..]));
      assert [s[0]] + (s[1..] + "\n") == s + "\n";
    }
  }

  lemma InFrontConcat(c: char, x: seq<string>, y: seq<string>)
    requires x != []
    ensures InFront(c, x + y) == InFront(c, x) + y
  {
  }

  /** Splitting is compositional at a line feed. */
  lemma {:induction false} SplitConcat(a: string, b: string)
    ensures Split(a + "\n" + b) == Split(a) + Split(b)
  {
    if a == "" {
      SplitOneLine("", b);
    } else {
      SplitConcat(a[1..], b);
      assert (a + "\n" + b)[1..] == a[1..] + "\n" + b;
      InFrontConcat(a[0], Split(a[1..]), Split(b));
    }
  }

  // ---- The byte order `sort.Strings` uses; on UTF-8 text it is the order of code points. ----

  predicate Less(a: string, b: string) {
    if b == "" then false
    else if a == "" then true
    else a[0] < b[0] || (a[0] == b[0] && Less(a[1..], b[1..]))
  }

  /** The first difference decides, and a proper prefix comes first. */
  lemma {:induction false} LessIs(a: string, b: string)
    ensures Less(a, b) <==> exists k :: 0 <= k <= |a| && k < |b| && a[..k] == b[..k] && (k == |a| || a[k] < b[k])
  {
    if a != "" && b != "" && a[0] == b[0] {
      LessIs(a[1..], b[1..]);
      if Less(a, b) {
        var k :| 0 <= k <= |a[1..]| && k < |b[1..]| && a[1..][..k] == b[1..][..k] && (k == |a[1..]| || a[1..][k] < b[1..][k]);
        assert a[..k + 1] == [a[0]] + a[1..][..k] && b[..k + 1] == [b[0]] + b[1..][..k];
      }
      if k :| 0 <= k <= |a| && k < |b| && a[..k] == b[..k] && (k == |a| || a[k] < b[k]) {
        assert k > 0;
        assert a[1..][..k - 1] == a[..k][1..] && b[1..][..k - 1] == b[..k][1..];
      }
    } else if a != "" && b != "" {
      assert a[..0] == b[..0];
      assert forall k {:trigger a[..k]} :: 0 < k <= |a| && k < |b| ==> a[..k][0] == a[0] && b[..k][0] == b[0];
    } else {
      assert a == "" && b != "" ==> a[..0] == b[..0];
    }
  }

  lemma LessTransitive(a: string, b: string, c: string)
    requires Less(a, b) && Less(b, c)
    ensures Less(a, c)
  {
  }

  lemma {:induction false} LessTotal(a: string, b: string)
    ensures Less(a, b) || a == b || Less(b, a)
    ensures !(Less(a, b) && Less(b, a))
  {
    if a != "" && b != "" {
      LessTotal(a[1..], b[1..]);
      assert a == [a[0]] + a[1..] && b == [b[0]] + b[1..];
    }
  }

  ghost predicate Sorted(names: seq<string>) {
    forall i, j :: 0 <= i < j < |names| ==> Less(names[i], names[j])
  }

  ghost predicate IsLeast(m: string, names: set<string>) {
    m in names && forall x :: x in names && x != m ==> Less(m, x)
  }

  /** Takes the least element of a non-empty set. */
  method Least(names: set<string>) returns (m: string)
    requires names != {}
    ensures IsLeast(m, names)
  {
    m :| m in names;
    var rest := names - {m};
    while rest != {}
      invariant m in names && rest <= names && m !in rest
      invariant forall x :: x in names - rest && x != m ==> Less(m, x)
      decreases rest
    {
      var x :| x in rest;
      LessTotal(m, x);
      if Less(x, m) {
        forall y | y in names - rest && y != m ensures Less(x, y) {
          LessTransitive(x, m, y);
        }
        m := x;
      }
      rest := rest - {x};
    }
  }

  /** The keys of a map, collected and sorted. */
  method SortedNames(names: set<string>) returns (sorted: seq<string>)
    ensures Sorted(sorted)
    ensures forall x :: x in sorted <==> x in names
  {
    sorted := [];
    var rest := names;
    while rest != {}
      invariant rest <= names
      invariant Sorted(sorted)
      invariant forall x :: x in sorted <==> x in names - rest
      invariant forall x, y :: x in sorted && y in rest ==> Less(x, y)
      decreases rest
    {
      var m := Least(rest);
      sorted := sorted + [m];
      rest := rest - {m};
    }
  }

  /** Sorting has one answer, so two sorted listings of the same names are equal. */
  lemma {:induction false} SortedUnique(a: seq<string>, b: seq<string>)
    requires Sorted(a) && Sorted(b)
    requires forall x :: x in a <==> x in b
    ensures a == b
  {
    assert a == [] <==> b == [] by {
      assert b != [] ==> b[0] in b;
      assert a != [] ==> a[0] in a;
    }
    if a != [] {
      assert a[0] in b;
      assert b != [] && b[0] in a;
      LessTotal(a[0], b[0]);
      LessTotal(a[0], a[0]);
      assert a[0] == b[0];
      forall x ensures x in a[1..] <==> x in b[1..] {
        LessTotal(a[0], a[0]);
        if x in a[1..] {
          assert x in a && x != a[0];
        }
        if x in b[1..] {
          assert x in b && x != b[0];
        }
      }
      SortedUnique(a[1..], b[1..]);
    }
  }
}
