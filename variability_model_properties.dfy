/** What the Kconfig classifier's scans amount to: the help test, the `depends on` search and
    the order of its pattern tests, and the `depends on` lines of the classic Kconfig shapes. */
module VariabilityModelProperties {
  import opened Strings
  import opened DiffMarkers
  import opened VariabilityModelFileDiff

  /* ------------------------------------------------------------------------------------------ */
  /* Help texts                                                                                 */
  /* ------------------------------------------------------------------------------------------ */

  /** No line with index in `[lo, hi)` is a parent for the indentation. */
  predicate NoParentIn(lines: seq<string>, indentation: nat, lo: int, hi: int)
    requires 0 <= lo && hi <= |lines|
  {
    forall j :: lo <= j < hi ==> !IsParentAt(lines, indentation, j)
  }

  /** Line `k`, below `hi`, is the nearest parent before `hi` and its trimmed text is a help header. */
  predicate HelpParentAt(lines: seq<string>, indentation: nat, k: int, hi: int)
    requires hi <= |lines|
  {
    0 <= k < hi && IsParentAt(lines, indentation, k) && NoParentIn(lines, indentation, k + 1, hi) &&
    IsHelpHeader(Trim(NormalizedLines(lines)[k]))
  }

  /** The backward scan from `hi - 1` succeeds exactly when the nearest parent below `hi` is a
      help header. */
  lemma {:induction false} HelpParentScanIff(lines: seq<string>, indentation: nat, hi: int)
    requires 0 <= hi <= |lines|
    ensures HelpParentScan(lines, indentation, hi - 1) <==> exists k :: HelpParentAt(lines, indentation, k, hi)
    decreases hi
  {
    var c := hi - 1;
    if c >= 0 && IsParentAt(lines, indentation, c) {
      assert HelpParentScan(lines, indentation, c) == IsHelpHeader(Trim(NormalizedLines(lines)[c]));
      assert NoParentIn(lines, indentation, hi, hi);
      forall k | 0 <= k < c ensures !HelpParentAt(lines, indentation, k, hi) {
        assert !NoParentIn(lines, indentation, k + 1, hi);
      }
      if IsHelpHeader(Trim(NormalizedLines(lines)[c])) {
        assert HelpParentAt(lines, indentation, c, hi);
      }
    } else if c >= 0 {
      assert HelpParentScan(lines, indentation, c) == HelpParentScan(lines, indentation, c - 1);
      HelpParentScanIff(lines, indentation, c);
      forall k | 0 <= k < c
        ensures HelpParentAt(lines, indentation, k, hi) == HelpParentAt(lines, indentation, k, c)
      {
        assert NoParentIn(lines, indentation, k + 1, hi) == NoParentIn(lines, indentation, k + 1, c);
      }
      if exists k :: HelpParentAt(lines, indentation, k, hi) {
        var k :| HelpParentAt(lines, indentation, k, hi);
        assert HelpParentAt(lines, indentation, k, c);
      }
      if exists k :: HelpParentAt(lines, indentation, k, c) {
        var k :| HelpParentAt(lines, indentation, k, c);
        assert HelpParentAt(lines, indentation, k, hi);
      }
    }
  }

  /** `isPartOfHelp(line, p)`: never at the first line or for an unindented line; otherwise the
      nearest earlier line that normalises to a non-empty, less indented text starts, once
      trimmed, with `help`, `--help--` or `comment`. */
  lemma PartOfHelpIff(lines: seq<string>, diffLine: string, p: nat)
    requires p < |lines|
    ensures p == 0 || Indentation(diffLine) == 0 ==> !PartOfHelp(lines, diffLine, p)
    ensures p > 0 ==> (PartOfHelp(lines, diffLine, p) <==> exists k :: HelpParentAt(lines, Indentation(diffLine), k, p))
  {
    HelpParentScanIff(lines, Indentation(diffLine), p);
    if p > 0 {
      assert PartOfHelp(lines, diffLine, p) == (Indentation(diffLine) > 0 && HelpParentScan(lines, Indentation(diffLine), p - 1));
      assert HelpParentScan(lines, Indentation(diffLine), p - 1) <==> exists k :: HelpParentAt(lines, Indentation(diffLine), k, p);
      if Indentation(diffLine) == 0 {
        assert forall k :: !HelpParentAt(lines, Indentation(diffLine), k, p);
      }
    }
  }

  /* ------------------------------------------------------------------------------------------ */
  /* The `depends on` search                                                                    */
  /* ------------------------------------------------------------------------------------------ */

  /** The normalised line at `k` stops the backward search: a `comment "` line or a relevant one. */
  predicate Decides(lines: seq<string>, k: nat)
    requires k < |lines|
  {
    var previousDiffLine := NormalizedLines(lines)[k];
    ConfigCommentPattern(previousDiffLine) || Relevant(lines, previousDiffLine, k)
  }

  /** A line that ends the backward search in favour of the `depends on` line. */
  predicate IsModelElement(lines: seq<string>, k: nat)
    requires k < |lines|
  {
    var previousDiffLine := NormalizedLines(lines)[k];
    !ConfigCommentPattern(previousDiffLine) && Relevant(lines, previousDiffLine, k)
  }

  /** One step of the backward search, in terms of the two predicates above. */
  lemma DependsScanStep(lines: seq<string>, c: nat)
    requires c < |lines|
    ensures DependsScan(lines, c) == (IsModelElement(lines, c) || (!Decides(lines, c) && DependsScan(lines, c - 1)))
  {
  }

  /** What the backward search does at one line: accept it, stop there, or pass it by. */
  datatype SearchStep = Element | Stop | Pass

  function StepAt(lines: seq<string>, k: nat): (step: SearchStep)
    requires k < |lines|
    ensures step == Element <==> IsModelElement(lines, k)
    ensures step == Pass <==> !Decides(lines, k)
  {
    if IsModelElement(lines, k) then Element else if Decides(lines, k) then Stop else Pass
  }

  /** The search steps of the first `n` lines. */
  function SearchPrefix(lines: seq<string>, n: nat): (steps: seq<SearchStep>)
    requires n <= |lines|
    ensures |steps| == n
  {
    if n == 0 then [] else SearchPrefix(lines, n - 1) + [StepAt(lines, n - 1)]
  }

  function SearchSteps(lines: seq<string>): (steps: seq<SearchStep>)
    ensures |steps| == |lines|
  {
    SearchPrefix(lines, |lines|)
  }

  lemma {:induction false} SearchPrefixAt(lines: seq<string>, n: nat, k: nat)
    requires k < n <= |lines|
    ensures SearchPrefix(lines, n)[k] == StepAt(lines, k)
  {
    var prev := SearchPrefix(lines, n - 1);
    assert SearchPrefix(lines, n) == prev + [StepAt(lines, n - 1)];
    if k < n - 1 {
      assert SearchPrefix(lines, n)[k] == prev[k];
      SearchPrefixAt(lines, n - 1, k);
    }
  }

  /** No step with index in `[lo, hi)` ends the search. */
  predicate UndecidedIn(steps: seq<SearchStep>, lo: int, hi: int)
    requires 0 <= lo && hi <= |steps|
  {
    forall j :: lo <= j < hi ==> steps[j] == Pass
  }

  /** Searching backwards from `hi - 1`, the first step that does not pass is at `k` and accepts. */
  predicate ElementFoundAt(steps: seq<SearchStep>, k: int, hi: int)
    requires hi <= |steps|
  {
    0 <= k < hi && steps[k] == Element && UndecidedIn(steps, k + 1, hi)
  }

  /** A step that stops without accepting leaves nothing below it for the search. */
  lemma StopAtTop(steps: seq<SearchStep>, c: nat, hi: nat)
    requires hi == c + 1 <= |steps| && steps[c] == Stop
    ensures forall k :: !ElementFoundAt(steps, k, hi)
  {
    forall k | 0 <= k < c ensures !ElementFoundAt(steps, k, hi) {
      assert !UndecidedIn(steps, k + 1, hi);
    }
  }

  /** A step that passes hands the search on to the steps below it. */
  lemma PassAtTop(steps: seq<SearchStep>, c: nat, hi: nat)
    requires hi == c + 1 <= |steps| && steps[c] == Pass
    ensures (exists k :: ElementFoundAt(steps, k, hi)) <==> exists k :: ElementFoundAt(steps, k, c)
  {
    if exists k :: ElementFoundAt(steps, k, hi) {
      var k :| ElementFoundAt(steps, k, hi);
      assert ElementFoundAt(steps, k, c);
    }
    if exists k :: ElementFoundAt(steps, k, c) {
      var k :| ElementFoundAt(steps, k, c);
      assert ElementFoundAt(steps, k, hi);
    }
  }

  /** The backward search from `hi - 1` succeeds exactly when it meets a model element before
      any `comment "` line or other deciding line. */
  lemma {:induction false} DependsScanIff(lines: seq<string>, hi: nat)
    requires hi <= |lines|
    ensures DependsScan(lines, hi - 1) <==> exists k :: ElementFoundAt(SearchSteps(lines), k, hi)
    decreases hi
  {
    if hi > 0 {
      var c := hi - 1;
      var steps := SearchSteps(lines);
      DependsScanIff(lines, c);
      SearchPrefixAt(lines, |lines|, c);
      DependsScanStep(lines, c);
      match steps[c]
      case Element =>
        assert UndecidedIn(steps, hi, hi);
        assert ElementFoundAt(steps, c, hi);
      case Stop =>
        StopAtTop(steps, c, hi);
      case Pass =>
        PassAtTop(steps, c, hi);
    }
  }

  /** `isRelevantChange(line, p)`: outside help, a definition or `source` line is relevant, and a
      `depends on` line is relevant exactly when, searching backwards from `p - 1`, a relevant line
      comes before any `comment "` line; a search that reaches the first line finds nothing. The
      backward search only asks about strictly smaller indices. */
  lemma RelevantIff(lines: seq<string>, cleanDiffLine: string, p: nat)
    requires p < |lines|
    ensures Relevant(lines, cleanDiffLine, p) <==>
              !PartOfHelp(lines, cleanDiffLine, p) &&
              (ConfigDefPattern(cleanDiffLine) || FileIncludePattern(cleanDiffLine) ||
               (DependsOnPattern(cleanDiffLine) && exists k :: ElementFoundAt(SearchSteps(lines), k, p)))
    ensures p == 0 ==> (Relevant(lines, cleanDiffLine, p) <==> ConfigDefPattern(cleanDiffLine) || FileIncludePattern(cleanDiffLine))
  {
    DependsScanIff(lines, p);
  }

  /* ------------------------------------------------------------------------------------------ */
  /* Patterns                                                                                   */
  /* ------------------------------------------------------------------------------------------ */

  /** No keyword of MODEL_CONFIG_DEF_PATTERN is a prefix of a text starting with `dep`. */
  lemma NoKeywordStartsDep(t: string)
    requires |t| >= 3 && t[0] == 'd' && t[1] == 'e' && t[2] == 'p'
    ensures forall i :: 0 <= i < |MODEL_CONFIG_KEYWORDS| ==> !StartsWith(t, MODEL_CONFIG_KEYWORDS[i])
  {
  }

  /** No keyword of MODEL_CONFIG_DEF_PATTERN is a prefix of a text starting with `com`. */
  lemma NoKeywordStartsCom(t: string)
    requires |t| >= 3 && t[0] == 'c' && t[1] == 'o' && t[2] == 'm'
    ensures forall i :: 0 <= i < |MODEL_CONFIG_KEYWORDS| ==> !StartsWith(t, MODEL_CONFIG_KEYWORDS[i])
  {
  }

  /** A `depends on` line is neither a definition nor a `source` line, so the order in which the
      classifier tests the three patterns does not change the verdict. */
  lemma DependsOnIsNoDefinition(s: string)
    requires DependsOnPattern(s)
    ensures !ConfigDefPattern(s) && !FileIncludePattern(s)
  {
    var k := SkipSpaces(s, 0);
    var t := s[k..];
    assert t[..10] == "depends on";
    assert t[0] == 'd' && t[1] == 'e' && t[2] == 'p';
    NoKeywordStartsDep(t);
    forall kw | kw in MODEL_CONFIG_KEYWORDS ensures !KeywordAt(s, k, kw) {
      var i :| 0 <= i < |MODEL_CONFIG_KEYWORDS| && MODEL_CONFIG_KEYWORDS[i] == kw;
    }
  }

  /** A `comment "` line is not a definition line, so the `depends on` search stops at it rather
      than finding an element there. */
  lemma CommentIsNoDefinition(s: string)
    requires ConfigCommentPattern(s)
    ensures !ConfigDefPattern(s)
  {
    var k := SkipSpaces(s, 0);
    var t := s[k..];
    assert t[..7] == "comment";
    assert t[0] == 'c' && t[1] == 'o' && t[2] == 'm';
    NoKeywordStartsCom(t);
    forall kw | kw in MODEL_CONFIG_KEYWORDS ensures !KeywordAt(s, k, kw) {
      var i :| 0 <= i < |MODEL_CONFIG_KEYWORDS| && MODEL_CONFIG_KEYWORDS[i] == kw;
    }
  }

  /** A line without `#` normalises to itself once its marker is gone. */
  lemma NormalizeWithoutComment(diffLine: string)
    requires forall k :: 0 <= k < |diffLine| ==> diffLine[k] != '#'
    ensures Normalize(diffLine) == StripMarker(diffLine)
  {
    var t := StripMarker(diffLine);
    assert forall k :: 0 <= k < |t| ==> t[k] != '#';
    AbsentFirstChar(t, MODEL_COMMENT_MARKER);
    IndexOfFirst(t, MODEL_COMMENT_MARKER);
  }

  /* ------------------------------------------------------------------------------------------ */
  /* Classic Kconfig shapes                                                                     */
  /* ------------------------------------------------------------------------------------------ */

  /** A line indented below a less indented `help`, `--help--` or `comment` line right above it
      is help text and never relevant, whatever it says. */
  lemma LineBelowHelpHeaderIsHelp(lines: seq<string>, cleanDiffLine: string, p: nat)
    requires 0 < p < |lines|
    requires var parent := NormalizedLines(lines)[p - 1];
      parent != "" && Indentation(parent) < Indentation(cleanDiffLine) && IsHelpHeader(Trim(parent))
    ensures PartOfHelp(lines, cleanDiffLine, p) && !Relevant(lines, cleanDiffLine, p)
  {
  }

  /** An unindented definition line is an element the `depends on` search accepts. */
  lemma DefinitionIsModelElement(lines: seq<string>, k: nat)
    requires k < |lines|
    requires var entry := NormalizedLines(lines)[k]; Indentation(entry) == 0 && ConfigDefPattern(entry)
    ensures IsModelElement(lines, k)
  {
    var entry := NormalizedLines(lines)[k];
    if ConfigCommentPattern(entry) {
      CommentIsNoDefinition(entry);
      assert false;
    }
  }

  /** A line right below a non-empty, less indented line that is no help header is not help. */
  lemma BelowOtherParentIsNoHelp(lines: seq<string>, diffLine: string, p: nat)
    requires 0 < p < |lines|
    requires var parent := NormalizedLines(lines)[p - 1];
      parent != "" && Indentation(parent) < Indentation(diffLine) && !IsHelpHeader(Trim(parent))
    ensures !PartOfHelp(lines, diffLine, p)
  {
    assert IsParentAt(lines, Indentation(diffLine), p - 1);
  }

  /** The search from `c` accepts a model element at `c` itself. */
  lemma ElementAboveIsFound(lines: seq<string>, c: nat)
    requires c < |lines| && IsModelElement(lines, c)
    ensures DependsScan(lines, c)
  {
    DependsScanStep(lines, c);
  }

  /** The search from `c` stops at a `comment "` line at `c` without finding anything. */
  lemma CommentAboveStopsSearch(lines: seq<string>, c: nat)
    requires c < |lines| && ConfigCommentPattern(NormalizedLines(lines)[c])
    ensures !DependsScan(lines, c)
  {
    DependsScanStep(lines, c);
  }

  /** A `depends on` line outside help text is relevant exactly when the search from the line
      above it succeeds. */
  lemma DependsOnRelevance(lines: seq<string>, n: string, p: nat)
    requires 0 < p < |lines| && DependsOnPattern(n) && !PartOfHelp(lines, n, p)
    ensures Relevant(lines, n, p) == DependsScan(lines, p - 1)
  {
    DependsOnIsNoDefinition(n);
  }

  /** A `depends on` line right below an unindented definition line (`config FOO`, say) that is
      not itself a help header is relevant, indented or not: the definition is the element it
      belongs to. */
  lemma DependsOnBelowDefinitionIsRelevant(lines: seq<string>, cleanDiffLine: string, p: nat)
    requires 0 < p < |lines| && DependsOnPattern(cleanDiffLine)
    requires var entry := NormalizedLines(lines)[p - 1];
      entry != "" && Indentation(entry) == 0 && ConfigDefPattern(entry) && !IsHelpHeader(Trim(entry))
    ensures Relevant(lines, cleanDiffLine, p)
  {
    DefinitionIsModelElement(lines, p - 1);
    ElementAboveIsFound(lines, p - 1);
    if Indentation(cleanDiffLine) > 0 {
      BelowOtherParentIsNoHelp(lines, cleanDiffLine, p);
    }
    DependsOnRelevance(lines, cleanDiffLine, p);
  }

  /** An unindented `depends on` line right below a `comment "..."` line is not relevant: the
      backward search stops at the comment without finding an element. */
  lemma DependsOnBelowCommentIsNotRelevant(lines: seq<string>, cleanDiffLine: string, p: nat)
    requires 0 < p < |lines| && DependsOnPattern(cleanDiffLine) && Indentation(cleanDiffLine) == 0
    requires ConfigCommentPattern(NormalizedLines(lines)[p - 1])
    ensures !Relevant(lines, cleanDiffLine, p)
  {
    CommentAboveStopsSearch(lines, p - 1);
    DependsOnRelevance(lines, cleanDiffLine, p);
  }
}
