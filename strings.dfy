/** The few operations of Java's `String` that the classifiers use, over `seq<char>`.
    Character classes are fixed to ASCII: `\s` of `java.util.regex`, `Character.isWhitespace`
    and the `<= U+0020` rule of `String.trim`. */
module Strings {

  /** A character of the regular-expression class `\s`: space, tab, LF, VT, FF, CR. */
  predicate IsRegexSpace(c: char) {
    c == ' ' || 9 <= c as int <= 13
  }

  /** `Character.isWhitespace` on ASCII: the `\s` characters and the separators U+001C..U+001F. */
  predicate IsWhitespace(c: char) {
    IsRegexSpace(c) || 28 <= c as int <= 31
  }

  /** A character that `String.trim` removes. */
  predicate IsTrimmable(c: char) {
    c as int <= 32
  }

  predicate StartsWith(s: string, prefix: string) {
    |prefix| <= |s| && s[..|prefix|] == prefix
  }

  predicate EndsWith(s: string, suffix: string) {
    |suffix| <= |s| && s[|s| - |suffix|..] == suffix
  }

  /** `d` occurs in `s` starting at index `i`. */
  predicate OccursAt(s: string, d: string, i: int) {
    0 <= i && i + |d| <= |s| && s[i..i + |d|] == d
  }

  /** `String.contains`. */
  predicate Contains(s: string, d: string) {
    exists i :: 0 <= i <= |s| - |d| && OccursAt(s, d, i)
  }

  /** The first occurrence of `d` in `s` at or after index `i`, or -1. */
  function IndexFrom(s: string, d: string, i: nat): (r: int)
    requires i <= |s|
    ensures r == -1 || i <= r <= |s| - |d|
    decreases |s| - i
  {
    if i + |d| > |s| then -1
    else if OccursAt(s, d, i) then i
    else IndexFrom(s, d, i + 1)
  }

  /** `String.indexOf`: the first occurrence of `d` in `s`, or -1. */
  function IndexOf(s: string, d: string): (r: int)
    ensures r == -1 || 0 <= r <= |s| - |d|
  {
    IndexFrom(s, d, 0)
  }

  lemma {:induction false} IndexFromFirst(s: string, d: string, i: nat)
    requires i <= |s|
    ensures var r := IndexFrom(s, d, i);
      (r == -1 <==> forall j :: i <= j <= |s| - |d| ==> !OccursAt(s, d, j)) &&
      (r != -1 ==> OccursAt(s, d, r) && forall j :: i <= j < r ==> !OccursAt(s, d, j))
    decreases |s| - i
  {
    if i + |d| <= |s| && !OccursAt(s, d, i) {
      IndexFromFirst(s, d, i + 1);
    }
  }

  /** `IndexOf` finds an occurrence exactly when there is one, and it is the first. */
  lemma IndexOfFirst(s: string, d: string)
    ensures IndexOf(s, d) < 0 <==> !Contains(s, d)
    ensures 0 <= IndexOf(s, d) ==>
              OccursAt(s, d, IndexOf(s, d)) && forall j :: 0 <= j < IndexOf(s, d) ==> !OccursAt(s, d, j)
  {
    IndexFromFirst(s, d, 0);
  }

  /** The text before the first occurrence of `d`, or all of `s` when `d` does not occur. */
  function Before(s: string, d: string): string {
    var i := IndexOf(s, d);
    if i < 0 then s else s[..i]
  }

  /** The text after the first occurrence of `d`, or "" when `d` does not occur. */
  function After(s: string, d: string): string {
    var i := IndexOf(s, d);
    if i < 0 then "" else s[i + |d|..]
  }

  /** `Before` is a prefix and `After` a suffix of `s`. */
  lemma BeforeAfterBounds(s: string, d: string)
    ensures StartsWith(s, Before(s, d)) && EndsWith(s, After(s, d))
  {
  }

  /** No occurrence of `d` lies inside the text before its first occurrence. */
  lemma BeforeHasNoOccurrence(s: string, d: string)
    requires |d| > 0
    ensures !Contains(Before(s, d), d)
  {
    IndexOfFirst(s, d);
    var i := IndexOf(s, d);
    var b := Before(s, d);
    if i >= 0 {
      forall j | 0 <= j <= |b| - |d| ensures !OccursAt(b, d, j) {
        assert b[j..j + |d|] == s[j..j + |d|];
        assert !OccursAt(s, d, j);
      }
    }
  }

  /** The text between the first and the second occurrence of `d` (or the end of `s`). */
  function Segment(s: string, d: string): string {
    Before(After(s, d), d)
  }

  /** The pieces of `s` around every occurrence of `d`, found left to right without overlap. */
  function Pieces(s: string, d: string): (ps: seq<string>)
    requires |d| > 0
    ensures |ps| >= 1 && ps[0] == Before(s, d)
    ensures Contains(s, d) ==> |ps| >= 2 && ps[1] == Segment(s, d)
    decreases |s|
  {
    IndexOfFirst(s, d);
    var i := IndexOf(s, d);
    if i < 0 then [s] else [s[..i]] + Pieces(s[i + |d|..], d)
  }

  /** Drops the trailing empty strings of `ps`, as `String.split` with limit 0 does. */
  function DropTrailingEmpty(ps: seq<string>): (r: seq<string>)
    ensures |r| <= |ps| && r == ps[..|r|]
    ensures forall k :: |r| <= k < |ps| ==> ps[k] == ""
    ensures |r| > 0 ==> r[|r| - 1] != ""
    decreases |ps|
  {
    if |ps| > 0 && ps[|ps| - 1] == "" then DropTrailingEmpty(ps[..|ps| - 1]) else ps
  }

  /** `String.split` with a regular expression that matches exactly the literal `d`: a string
      without `d` splits into itself, otherwise trailing empty pieces are removed. */
  function Split(s: string, d: string): (parts: seq<string>)
    requires |d| > 0
    ensures (if |parts| > 0 then parts[0] else "") == Before(s, d)
    ensures Contains(s, d) ==> (if |parts| > 1 then parts[1] else "") == Segment(s, d)
  {
    IndexOfFirst(s, d);
    if !Contains(s, d) then [s] else DropTrailingEmpty(Pieces(s, d))
  }

  /** `s` without its leading characters `<= U+0020`. */
  function TrimLeft(s: string): string
    decreases |s|
  {
    if |s| > 0 && IsTrimmable(s[0]) then TrimLeft(s[1..]) else s
  }

  /** `s` without its trailing characters `<= U+0020`. */
  function TrimRight(s: string): string
    decreases |s|
  {
    if |s| > 0 && IsTrimmable(s[|s| - 1]) then TrimRight(s[..|s| - 1]) else s
  }

  /** `String.trim`. */
  function Trim(s: string): string {
    TrimRight(TrimLeft(s))
  }

  /** `s.trim().isEmpty()`, stated character by character: every character is `<= U+0020`. */
  predicate IsBlank(s: string)
    decreases |s|
  {
    |s| == 0 || (IsTrimmable(s[0]) && IsBlank(s[1..]))
  }

  lemma {:induction false} TrimLeftSpec(s: string)
    ensures var r := TrimLeft(s);
      |r| <= |s| && r == s[|s| - |r|..] &&
      (forall k :: 0 <= k < |s| - |r| ==> IsTrimmable(s[k])) &&
      (r == [] || !IsTrimmable(r[0]))
    decreases |s|
  {
    if |s| > 0 && IsTrimmable(s[0]) {
      TrimLeftSpec(s[1..]);
      var r := TrimLeft(s);
      forall k | 0 <= k < |s| - |r| ensures IsTrimmable(s[k]) {
        if k > 0 {
          assert s[k] == s[1..][k - 1];
        }
      }
    }
  }

  lemma {:induction false} TrimRightEmpty(s: string)
    ensures TrimRight(s) == [] <==> forall k :: 0 <= k < |s| ==> IsTrimmable(s[k])
    decreases |s|
  {
    if |s| > 0 && IsTrimmable(s[|s| - 1]) {
      TrimRightEmpty(s[..|s| - 1]);
      if TrimRight(s) == [] {
        forall k | 0 <= k < |s| ensures IsTrimmable(s[k]) {
          if k < |s| - 1 {
            assert s[k] == s[..|s| - 1][k];
          }
        }
      }
    }
  }

  lemma {:induction false} BlankAllTrimmable(s: string)
    ensures IsBlank(s) <==> forall k :: 0 <= k < |s| ==> IsTrimmable(s[k])
    decreases |s|
  {
    if |s| > 0 {
      BlankAllTrimmable(s[1..]);
      if forall k :: 0 <= k < |s| ==> IsTrimmable(s[k]) {
        forall k | 0 <= k < |s[1..]| ensures IsTrimmable(s[1..][k]) {
          assert s[1..][k] == s[k + 1];
        }
      }
      if IsBlank(s) {
        forall k | 0 <= k < |s| ensures IsTrimmable(s[k]) {
          if k > 0 {
            assert s[k] == s[1..][k - 1];
          }
        }
      }
    }
  }

  /** `IsBlank` is `s.trim().isEmpty()`. */
  lemma BlankIsTrimEmpty(s: string)
    ensures IsBlank(s) <==> Trim(s) == []
  {
    BlankAllTrimmable(s);
    TrimLeftSpec(s);
    var t := TrimLeft(s);
    TrimRightEmpty(t);
    if t != [] {
      assert !IsTrimmable(t[0]);
    }
    if Trim(s) == [] {
      assert t == [];
    }
  }

  /** The statement on this line continues on the next one: the last character of `s` that is
      not `<= U+0020` is a backslash. Lemma `ContinuationIsTrimmedSuffix` shows that this is
      `s.trim().endsWith("\\")`. */
  predicate EndsWithContinuation(s: string)
    decreases |s|
  {
    |s| > 0 &&
    if IsTrimmable(s[|s| - 1]) then EndsWithContinuation(s[..|s| - 1]) else s[|s| - 1] == '\\'
  }

  lemma {:induction false} TrimRightContinuation(s: string)
    ensures EndsWithContinuation(s) <==> EndsWith(TrimRight(s), "\\")
    decreases |s|
  {
    if |s| > 0 && IsTrimmable(s[|s| - 1]) {
      TrimRightContinuation(s[..|s| - 1]);
    }
  }

  lemma {:induction false} TrimLeftKeepsContinuation(s: string)
    ensures EndsWithContinuation(s) <==> EndsWithContinuation(TrimLeft(s))
    decreases |s|
  {
    if |s| > 0 && IsTrimmable(s[0]) {
      TrimLeftKeepsContinuation(s[1..]);
      DropFirstKeepsContinuation(s);
    }
  }

  lemma {:induction false} DropFirstKeepsContinuation(s: string)
    requires |s| > 0 && IsTrimmable(s[0])
    ensures EndsWithContinuation(s) <==> EndsWithContinuation(s[1..])
    decreases |s|
  {
    if |s| > 1 && IsTrimmable(s[|s| - 1]) {
      DropFirstKeepsContinuation(s[..|s| - 1]);
      assert s[..|s| - 1][1..] == s[1..][..|s[1..]| - 1];
    }
  }

  /** `EndsWithContinuation` is `s.trim().endsWith("\\")`. */
  lemma ContinuationIsTrimmedSuffix(s: string)
    ensures EndsWithContinuation(s) <==> EndsWith(Trim(s), "\\")
  {
    TrimLeftKeepsContinuation(s);
    TrimRightContinuation(TrimLeft(s));
  }

  /** The first index at or after `i` whose character is not in `\s`. */
  function SkipSpaces(s: string, i: nat): (k: nat)
    requires i <= |s|
    ensures i <= k <= |s|
    decreases |s| - i
  {
    if i < |s| && IsRegexSpace(s[i]) then SkipSpaces(s, i + 1) else i
  }

  /** `SkipSpaces(s, i)` is the end of the run of `\s` starting at `i`, and the only index that is. */
  lemma {:induction false} SkipSpacesIff(s: string, i: nat, k: nat)
    requires i <= k <= |s|
    ensures SkipSpaces(s, i) == k <==>
              (forall j :: i <= j < k ==> IsRegexSpace(s[j])) && (k == |s| || !IsRegexSpace(s[k]))
    decreases |s| - i
  {
    if i < |s| && IsRegexSpace(s[i]) && i < k {
      SkipSpacesIff(s, i + 1, k);
    }
  }

  /** No character of `s` equals `c`, so no string starting with `c` occurs in it. */
  lemma AbsentFirstChar(s: string, d: string)
    requires |d| > 0 && forall k :: 0 <= k < |s| ==> s[k] != d[0]
    ensures !Contains(s, d)
  {
    forall i | 0 <= i <= |s| - |d| ensures !OccursAt(s, d, i) {
      assert s[i..i + |d|][0] == s[i];
    }
  }
}
