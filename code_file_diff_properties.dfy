/** What the code classifier's scans amount to: the comment test, the two directions of the nested
    block search, the condition backtracking and the two relevance policies, each stated over the
    specification functions of `CodeFileDiff`. */
module CodeFileDiffProperties {
  import opened Strings
  import opened DiffMarkers
  import opened CodePatterns
  import opened CodeFileDiff

  /* ------------------------------------------------------------------------------------------ */
  /* Multi-line comments                                                                        */
  /* ------------------------------------------------------------------------------------------ */

  /** A stored line that opens a multi-line comment and does not close one. */
  predicate OpensComment(line: string) {
    Contains(line, CODE_ML_COMMENT_START_MARKER) && !Contains(line, CODE_ML_COMMENT_END_MARKER)
  }

  /** No stored line with index in `[lo, hi)` holds `/*` or `*/`. */
  predicate NoCommentMarkerIn(lines: seq<string>, lo: int, hi: int)
    requires 0 <= lo && hi <= |lines|
  {
    forall j :: lo <= j < hi ==> !HasCommentMarker(lines[j])
  }

  lemma {:induction false} CommentScanIff(lines: seq<string>, c: int)
    requires -1 <= c < |lines|
    ensures CommentScan(lines, c) <==>
              exists k :: 0 <= k <= c && OpensComment(lines[k]) && NoCommentMarkerIn(lines, k + 1, c + 1)
    decreases c + 1
  {
    if c >= 0 && !HasCommentMarker(lines[c]) {
      CommentScanIff(lines, c - 1);
      if CommentScan(lines, c) {
        var k :| 0 <= k <= c - 1 && OpensComment(lines[k]) && NoCommentMarkerIn(lines, k + 1, c);
        assert NoCommentMarkerIn(lines, k + 1, c + 1);
      }
      if exists k :: 0 <= k <= c && OpensComment(lines[k]) && NoCommentMarkerIn(lines, k + 1, c + 1) {
        var k :| 0 <= k <= c && OpensComment(lines[k]) && NoCommentMarkerIn(lines, k + 1, c + 1);
        assert k < c;
        assert NoCommentMarkerIn(lines, k + 1, c);
      }
    } else if c >= 0 && CommentScan(lines, c) {
      assert OpensComment(lines[c]) && NoCommentMarkerIn(lines, c + 1, c + 1);
    } else if c >= 0 {
      forall k | 0 <= k <= c && OpensComment(lines[k])
        ensures !NoCommentMarkerIn(lines, k + 1, c + 1)
      {
      }
    }
  }

  /** `isPartOfComment(p)`: the nearest earlier stored line with a comment marker opens a comment
      without closing it. */
  lemma InCommentIff(lines: seq<string>, p: nat)
    requires p <= |lines|
    ensures InComment(lines, p) <==>
              exists k :: 0 <= k < p && OpensComment(lines[k]) && NoCommentMarkerIn(lines, k + 1, p)
  {
    CommentScanIff(lines, p - 1);
  }

  /** A line inside a multi-line comment normalises to blank text and is never a relevant change,
      under either policy. */
  lemma CommentedLineSilenced(lines: seq<string>, considerAllBlocks: bool, p: nat)
    requires p < |lines| && InComment(lines, p)
    ensures IsBlank(Normalized(lines, lines[p], p))
    ensures !Relevant(lines, considerAllBlocks, p)
  {
  }

  /* ------------------------------------------------------------------------------------------ */
  /* The nested block search                                                                    */
  /* ------------------------------------------------------------------------------------------ */

  /** Backward mode tests the fixed start line where the scanned line is meant: for a start line
      matching CODE_END_IF_PATTERN every step only deepens the nesting, and nothing is found. */
  lemma {:induction false} BackwardScanFindsNothing(lines: seq<string>, cleanLine: string, c: int, nested: nat)
    requires c < |lines| && EndIfPattern(cleanLine)
    ensures !BackwardScan(lines, cleanLine, c, nested)
    decreases c + 1
  {
    if c >= 0 {
      BackwardScanFindsNothing(lines, cleanLine, c - 1, nested + 1);
    }
  }

  /** A scanned line at `k` that settles the forward search in favour of a nested configuration
      block: a normalised line with a `CONFIG_` reference that is itself an opener or `#else`, or
      that continues a stored opener or `#else` line. */
  predicate ForwardHit(lines: seq<string>, k: nat)
    requires k < |lines|
  {
    var diffLine := NormalizedLines(lines)[k];
    VarPattern(diffLine) && (IsOpenerOrElse(diffLine) || ContinuesOpener(lines, k))
  }

  /** Forward mode never meets its counterpart when the start line is not an `#endif`: it holds
      exactly when some line from `c` on is a hit, whatever the nesting depth. */
  lemma {:induction false} ForwardScanIff(lines: seq<string>, cleanLine: string, c: nat, nested: nat)
    requires !EndIfPattern(cleanLine)
    ensures ForwardScan(lines, cleanLine, c, nested) <==> exists k :: c <= k < |lines| && ForwardHit(lines, k)
    decreases |lines| - c
  {
    if c < |lines| {
      var diffLine := NormalizedLines(lines)[c];
      var next := if IsOpenerOrElse(diffLine) then nested + 1 else nested;
      ForwardScanIff(lines, cleanLine, c + 1, next);
      if ForwardHit(lines, c) {
        assert ForwardScan(lines, cleanLine, c, nested);
      } else {
        assert ForwardScan(lines, cleanLine, c, nested) == ForwardScan(lines, cleanLine, c + 1, next);
      }
      if exists k :: c <= k < |lines| && ForwardHit(lines, k) {
        var k :| c <= k < |lines| && ForwardHit(lines, k);
        if k > c {
          assert c + 1 <= k < |lines| && ForwardHit(lines, k);
        }
      }
    }
  }

  /** `checkForConfigBlocks` on an `#endif` start line reduces to `isConfigBlock`; on any other
      block line it also accepts a forward hit. */
  lemma ConfigBlockChangeByDirection(lines: seq<string>, p: nat)
    requires p < |lines|
    ensures EndIfPattern(lines[p]) ==> (ConfigBlockChange(lines, p) <==> ConfigBlock(lines, p))
    ensures !EndIfPattern(lines[p]) ==>
              (ConfigBlockChange(lines, p) <==>
               ConfigBlock(lines, p) ||
               (IsBlock(lines[p]) && exists k :: p + 1 <= k < |lines| && ForwardHit(lines, k)))
  {
    if EndIfPattern(lines[p]) {
      BackwardScanFindsNothing(lines, lines[p], p - 1, 0);
    } else {
      ForwardScanIff(lines, lines[p], p + 1, 0);
    }
  }

  /* ------------------------------------------------------------------------------------------ */
  /* Condition backtracking                                                                     */
  /* ------------------------------------------------------------------------------------------ */

  /** A block end is judged variability related only after a stored line before it that contains
      `#if` and matches neither `#else` nor `#endif`. */
  lemma {:induction false} BacktrackNeedsOpener(lines: seq<string>, e: nat, inverted: char, c: int, nested: nat)
    requires e < |lines| && c < e
    requires BacktrackFrom(lines, e, inverted, c, nested)
    ensures exists k :: 0 <= k <= c && !IfEndPattern(lines[k]) && Contains(lines[k], "#if")
    decreases c + 1
  {
    var diffLine := lines[c];
    if nested == 0 && !IfEndPattern(diffLine) && Contains(diffLine, "#if") {
    } else if |diffLine| > 0 && diffLine[0] != inverted && Contains(diffLine, "#endif") {
      BacktrackNeedsOpener(lines, e, inverted, c - 1, nested + 1);
    } else if nested > 0 && Contains(diffLine, "#if") {
      BacktrackNeedsOpener(lines, e, inverted, c - 1, nested - 1);
    } else {
      BacktrackNeedsOpener(lines, e, inverted, c - 1, nested);
    }
  }

  lemma ConditionNeedsOpener(lines: seq<string>, e: nat)
    requires e < |lines| && IfEndPattern(lines[e]) && ConditionIsConfig(lines, e)
    ensures exists k :: 0 <= k < e && !IfEndPattern(lines[k]) && Contains(lines[k], "#if")
  {
    BacktrackNeedsOpener(lines, e, InvertChangeType(lines[e][0]), e - 1, 0);
  }

  /* ------------------------------------------------------------------------------------------ */
  /* Continued conditions and the nearest opener                                                */
  /* ------------------------------------------------------------------------------------------ */

  /** Line `j` is the first line from `k` on that the continuation loop must reach to find a
      `CONFIG_` reference: its normalised text refers to one, and every normalised line from `k`
      up to `j` (exclusive) continues onto the next one. */
  predicate ConfigReachedAt(lines: seq<string>, k: int, j: int) {
    0 <= k <= j < |lines| && VarPattern(NormalizedLines(lines)[j]) &&
    forall i :: k <= i < j ==> EndsWithContinuation(NormalizedLines(lines)[i])
  }

  /** The continuation loop of `isConfigBlock`, started at `k`, succeeds exactly when some
      normalised line `j` from `k` on refers to a `CONFIG_` option and every normalised line from
      `k` up to `j` (exclusive) continues onto the next one. */
  lemma {:induction false} ContinuationHasConfigIff(lines: seq<string>, k: nat)
    ensures ContinuationHasConfig(lines, k) <==> exists j :: ConfigReachedAt(lines, k, j)
    decreases |lines| - k
  {
    if k < |lines| {
      var norm := NormalizedLines(lines);
      ContinuationHasConfigIff(lines, k + 1);
      if VarPattern(norm[k]) {
        assert ConfigReachedAt(lines, k, k);
      } else if !EndsWithContinuation(norm[k]) {
        forall j ensures !ConfigReachedAt(lines, k, j) {
          if k < j < |lines| {
            assert !EndsWithContinuation(NormalizedLines(lines)[k]);
          }
        }
      } else {
        assert ContinuationHasConfig(lines, k) == ContinuationHasConfig(lines, k + 1);
        if ContinuationHasConfig(lines, k) {
          var j :| ConfigReachedAt(lines, k + 1, j);
          assert ConfigReachedAt(lines, k, j);
        }
        if exists j :: ConfigReachedAt(lines, k, j) {
          var j :| ConfigReachedAt(lines, k, j);
          assert ConfigReachedAt(lines, k + 1, j);
        }
      }
    }
  }

  /** Line `j` is a line the do-while, started at `b` for the block end `e`, reads and finds a
      `CONFIG_` reference in: `b` itself (read even when `b` is the block end) or a line before
      `e`, with every normalised line from `b` up to `j` (exclusive) continuing. */
  predicate ConditionReachedAt(lines: seq<string>, b: int, e: int, j: int) {
    0 <= b <= j <= e < |lines| && (j == b || j < e) && VarPattern(NormalizedLines(lines)[j]) &&
    forall i :: b <= i < j ==> EndsWithContinuation(NormalizedLines(lines)[i])
  }

  /** The do-while of `backtrackPreprocessorCondition`, started at `b` for the block end `e`,
      succeeds exactly when it reads a normalised line with a `CONFIG_` reference before it
      meets a line that does not continue or reaches `e`. */
  lemma {:induction false} ConditionContinuationIff(lines: seq<string>, b: nat, e: nat)
    requires b <= e < |lines|
    ensures ConditionContinuationHasConfig(lines, b, e) <==> exists j :: ConditionReachedAt(lines, b, e, j)
    decreases e - b
  {
    var norm := NormalizedLines(lines);
    if VarPattern(norm[b]) {
      assert ConditionReachedAt(lines, b, e, b);
    } else if b + 1 < e && EndsWithContinuation(norm[b]) {
      ConditionContinuationIff(lines, b + 1, e);
      assert ConditionContinuationHasConfig(lines, b, e) == ConditionContinuationHasConfig(lines, b + 1, e);
      if ConditionContinuationHasConfig(lines, b, e) {
        var j :| ConditionReachedAt(lines, b + 1, e, j);
        assert ConditionReachedAt(lines, b, e, j);
      }
      if exists j :: ConditionReachedAt(lines, b, e, j) {
        var j :| ConditionReachedAt(lines, b, e, j);
        assert ConditionReachedAt(lines, b + 1, e, j);
      }
    } else {
      forall j ensures !ConditionReachedAt(lines, b, e, j) {
        if b < j <= e {
          assert b + 1 < e ==> !EndsWithContinuation(NormalizedLines(lines)[b]);
        }
      }
    }
  }

  /** With no nesting, the backtracking passes over lines that contain neither `#if` nor `#endif`. */
  lemma {:induction false} BacktrackSkipsPlainLines(lines: seq<string>, e: nat, inverted: char, c: nat, d: nat)
    requires c <= d < e < |lines|
    requires forall i :: c < i <= d ==> !Contains(lines[i], "#if") && !Contains(lines[i], "#endif")
    ensures BacktrackFrom(lines, e, inverted, d, 0) == BacktrackFrom(lines, e, inverted, c, 0)
    decreases d - c
  {
    if d > c {
      BacktrackSkipsPlainLines(lines, e, inverted, c, d - 1);
    }
  }

  /** The nearest opener decides: when the stored line `c` contains `#if`, is no block end, and no
      stored line between it and the block end `e` contains `#if` or `#endif`, the condition of
      `e` refers to a `CONFIG_` option exactly when line `c` matches CODE_VAR_IF_START_PATTERN, or
      it continues and the do-while from `c + 1` finds a `CONFIG_` reference. */
  lemma NearestOpenerDecides(lines: seq<string>, e: nat, c: nat)
    requires c < e < |lines| && IfEndPattern(lines[e])
    requires !IfEndPattern(lines[c]) && Contains(lines[c], "#if")
    requires forall i :: c < i < e ==> !Contains(lines[i], "#if") && !Contains(lines[i], "#endif")
    ensures ConditionIsConfig(lines, e) <==>
              VarIfStartPattern(lines[c]) ||
              (EndsWithContinuation(lines[c]) && ConditionContinuationHasConfig(lines, c + 1, e))
  {
    BacktrackSkipsPlainLines(lines, e, InvertChangeType(lines[e][0]), c, e - 1);
  }

  /** A text without the letter `C` holds no `CONFIG_` reference. */
  lemma NoConfigWithoutC(s: string)
    requires forall k :: 0 <= k < |s| ==> s[k] != 'C'
    ensures !VarPattern(s)
  {
    forall i | 0 <= i < |s| ensures !VarRefAt(s, i) {
      if i + 2 < |s| {
        assert s[i + 1..][0] == s[i + 1] && s[i + 1..][1] == s[i + 2];
      } else if i + 1 < |s| {
        assert s[i + 1..][0] == s[i + 1];
      }
    }
  }

  /** A line without the letter `C` does not match CODE_VAR_IF_START_PATTERN. */
  lemma NoConfigStartWithoutC(s: string)
    requires forall k :: 0 <= k < |s| ==> s[k] != 'C'
    ensures !VarIfStartPattern(s)
  {
    forall j | 0 <= j < |s| ensures !VarIfStartAt(s, j) {
      var t := s[j..];
      var k := SkipSpaces(t, 1);
      forall n | k <= n <= |t| ensures !VarPattern(t[n..]) {
        assert forall m :: 0 <= m < |t[n..]| ==> t[n..][m] == s[j + n + m];
        NoConfigWithoutC(t[n..]);
      }
    }
  }

  /** The block end `-#endif (CONFIG_A)`: an `#endif` directive whose normalised text, at index 1
      below a line without comment markers, refers to `CONFIG_A`. */
  lemma ConfigEndLine(lines: seq<string>)
    requires |lines| == 2 && lines[1] == "-#endif (CONFIG_A)"
    requires !HasCommentMarker(lines[0])
    ensures IfEndPattern(lines[1]) && VarPattern(NormalizedLines(lines)[1])
  {
    var close := lines[1];
    var t := "#endif (CONFIG_A)";
    ConfigEndText(close, t);
    assert !InComment(lines, 1);
    assert Normalized(lines, close, 1) == t;
    NormalizedPrefixAt(lines, |lines|, 1);
  }

  /** The text of that block end: a deleted `#endif` whose unmarked text refers to `CONFIG_A` and
      holds no comment marker. */
  lemma ConfigEndText(close: string, t: string)
    requires close == "-#endif (CONFIG_A)" && t == "#endif (CONFIG_A)"
    ensures IfEndPattern(close) && StripMarker(close) == t && VarPattern(t)
    ensures !Contains(t, "//") && !Contains(t, CODE_ML_COMMENT_START_MARKER) && !Contains(t, CODE_ML_COMMENT_END_MARKER)
  {
    SkipSpacesIff(close, 2, 2);
    assert close[2..][..5] == "endif";
    assert DirectiveAt(close, 1, "endif");
    assert StripMarker(close) == t;
    ConfigEndRefersToConfig(t);
  }

  /** The unmarked text of that block end refers to `CONFIG_A` and holds no comment marker. */
  lemma ConfigEndRefersToConfig(t: string)
    requires t == "#endif (CONFIG_A)"
    ensures VarPattern(t)
    ensures !Contains(t, "//") && !Contains(t, CODE_ML_COMMENT_START_MARKER) && !Contains(t, CODE_ML_COMMENT_END_MARKER)
  {
    AbsentFirstChar(t, "//");
    AbsentFirstChar(t, CODE_ML_COMMENT_START_MARKER);
    AbsentFirstChar(t, CODE_ML_COMMENT_END_MARKER);
    assert t[8..][..7] == "CONFIG_";
    assert VarRefAt(t, 7);
  }

  /** An unchanged `#if` without a `CONFIG_` option that continues onto a deleted `#endif`: the
      do-while reads the block end line itself, and its `CONFIG_A` makes the condition count as
      variability related. */
  lemma ContinuedOpenerReadsBlockEnd()
    ensures var lines := [" #if defined(X) \\", "-#endif (CONFIG_A)"];
      IfEndPattern(lines[1]) && !VarIfStartPattern(lines[0]) &&
      ConditionContinuationHasConfig(lines, 1, 1) && ConditionIsConfig(lines, 1)
  {
    var lines := [" #if defined(X) \\", "-#endif (CONFIG_A)"];
    var opener := lines[0];
    OnlyIfDirective(opener);
    ContainsIfAt(opener, 1);
    NoConfigStartWithoutC(opener);
    AbsentFirstChar(opener, CODE_ML_COMMENT_START_MARKER);
    AbsentFirstChar(opener, CODE_ML_COMMENT_END_MARKER);
    ConfigEndLine(lines);
    assert EndsWithContinuation(opener);
    assert BacktrackFrom(lines, 1, InvertChangeType(lines[1][0]), 0, 0);
  }

  /* ------------------------------------------------------------------------------------------ */
  /* The two policies                                                                           */
  /* ------------------------------------------------------------------------------------------ */

  /** Under the configuration-only policy a relevant line starts a statement whose stored first
      line is a block line, or one that continues onto the next line; the continuation case asks
      for no preprocessor keyword at all. */
  lemma ConfigRelevantIsBlockOrContinued(lines: seq<string>, p: nat)
    requires p < |lines| && Relevant(lines, false, p)
    ensures var s := ContinuationStart(lines, p);
      IsBlock(lines[s]) || EndsWithContinuation(lines[s])
  {
    var s := ContinuationStart(lines, p);
    var line := lines[s];
    if VarIfdefPattern(line) {
      VarIfdefIsVarIf(line);
    }
  }

  /** The block patterns read the stored first line of the statement, marker included. When that
      line does not begin with `#` (every added or deleted line), only CODE_IF_END_PATTERN can make
      it a block, and under the configuration policy only a block end or a continued line can make
      it relevant. */
  lemma StoredStartLine(lines: seq<string>, p: nat)
    requires p < |lines|
    requires var line := lines[ContinuationStart(lines, p)]; |line| == 0 || line[0] != '#'
    ensures var line := lines[ContinuationStart(lines, p)];
      Relevant(lines, true, p) <==> !InComment(lines, p) && IfEndPattern(line)
    ensures var line := lines[ContinuationStart(lines, p)];
      Relevant(lines, false, p) ==> IfEndPattern(line) || EndsWithContinuation(line)
  {
    AnchoredPatternsNeedHash(lines[ContinuationStart(lines, p)]);
  }

  /* ------------------------------------------------------------------------------------------ */
  /* Concrete diffs                                                                             */
  /* ------------------------------------------------------------------------------------------ */

  /** `s` has no `#` except at index `h`, and no directive `kw` starts there. */
  lemma NoDirective(s: string, h: nat, kw: string)
    requires h < |s| && forall i :: 0 <= i < |s| && i != h ==> s[i] != '#'
    requires !DirectiveAt(s, h, kw)
    ensures !exists i :: 0 <= i < |s| && DirectiveAt(s, i, kw)
  {
  }

  /** An added `#if` on a `CONFIG_` option, alone in its diff, is not a relevant change under either
      policy: its stored line begins with `+`, so no `#`-anchored pattern accepts it, although the
      line without its marker matches CODE_VAR_IF_PATTERN. */
  lemma AddedConfigIfIsNotRelevant()
    ensures VarIfPattern("#if CONFIG_FOO")
    ensures !Relevant(["+#if CONFIG_FOO"], false, 0) && !Relevant(["+#if CONFIG_FOO"], true, 0)
  {
    IfOnConfig("#if CONFIG_FOO");
    AddedIfIsNoBlock(["+#if CONFIG_FOO"]);
  }

  /** A one-line diff holding an added `#if` is not relevant under either policy. */
  lemma AddedIfIsNoBlock(lines: seq<string>)
    requires lines == ["+#if CONFIG_FOO"]
    ensures !Relevant(lines, false, 0) && !Relevant(lines, true, 0)
  {
    var s := lines[0];
    OnlyIfDirective(s);
    assert !EndsWithContinuation(s);
  }

  /** `#if`, a delimiter and `CONFIG_` at the start of a line: CODE_VAR_IF_PATTERN accepts it. */
  lemma IfOnConfig(t: string)
    requires 11 <= |t| && t[0] == '#' && t[1] == 'i' && t[2] == 'f' && IsVarDelimiter(t[3])
    requires t[4] == 'C' && t[5] == 'O' && t[6] == 'N' && t[7] == 'F' && t[8] == 'I' && t[9] == 'G' && t[10] == '_'
    ensures VarIfPattern(t)
  {
    SkipSpacesIff(t, 1, 1);
    assert t[1..][..2] == "if";
    assert t[3..][1..][..7] == "CONFIG_";
    assert VarRefAt(t[3..], 0);
  }

  /** The first line of the continued scenario below: continued, no block, no comment marker. */
  lemma ContinuedOpenerLine(first: string)
    requires first == "+#if defined(CONFIG_X) && \\"
    ensures EndsWithContinuation(first) && !IfEndPattern(first) && !HasCommentMarker(first)
  {
    OnlyIfDirective(first);
    AbsentFirstChar(first, CODE_ML_COMMENT_START_MARKER);
    AbsentFirstChar(first, CODE_ML_COMMENT_END_MARKER);
  }

  /** A line whose only `#` is at index 1, directly followed by `i`, is no block end. */
  lemma OnlyIfDirective(s: string)
    requires 2 < |s| && s[1] == '#' && s[2] == 'i' && forall i :: 0 <= i < |s| && i != 1 ==> s[i] != '#'
    ensures !IfEndPattern(s)
  {
    SkipSpacesIff(s, 2, 2);
    NoDirective(s, 1, "else");
    NoDirective(s, 1, "endif");
  }

  /** An added line holding only a `CONFIG_` option, outside a comment, normalises to a line that
      CODE_VAR_PATTERN accepts. */
  lemma ConfigOperandLine(lines: seq<string>, k: nat)
    requires k < |lines| && lines[k] == "+    CONFIG_Y" && !InComment(lines, k)
    ensures VarPattern(NormalizedLines(lines)[k]) && !EndsWithContinuation(lines[k])
  {
    var t := "    CONFIG_Y";
    assert StripMarker(lines[k]) == t;
    AbsentFirstChar(t, "//");
    AbsentFirstChar(t, CODE_ML_COMMENT_START_MARKER);
    AbsentFirstChar(t, CODE_ML_COMMENT_END_MARKER);
    assert Normalized(lines, lines[k], k) == t;
    assert t[4..][..7] == "CONFIG_";
    assert VarRefAt(t, 3);
    NormalizedPrefixAt(lines, |lines|, k);
  }

  /** An added `#if` whose condition continues onto a second added line with a `CONFIG_` option is
      relevant under the configuration policy, at both lines; it is not a block under the all-blocks
      policy, so neither policy's relevant lines include the other's. */
  lemma ContinuedConfigConditionIsRelevant()
    ensures var lines := ["+#if defined(CONFIG_X) && \\", "+    CONFIG_Y"];
      Relevant(lines, false, 0) && Relevant(lines, false, 1) &&
      !Relevant(lines, true, 0) && !Relevant(lines, true, 1)
  {
    var lines := ["+#if defined(CONFIG_X) && \\", "+    CONFIG_Y"];
    ContinuedOpenerLine(lines[0]);
    assert ContinuationStart(lines, 1) == 0;
    assert !InComment(lines, 1);
    ConfigOperandLine(lines, 1);
    assert ContinuationHasConfig(lines, 1);
    StoredStartLine(lines, 0);
    StoredStartLine(lines, 1);
  }

  /** The context line ` #if CONFIG_A` contains `#if`, is no block end, and matches
      CODE_VAR_IF_START_PATTERN. */
  lemma ContextConfigOpener(opener: string)
    requires opener == " #if CONFIG_A"
    ensures !IfEndPattern(opener) && Contains(opener, "#if") && VarIfStartPattern(opener)
  {
    OnlyIfDirective(opener);
    ContainsIfAt(opener, 1);
    ConfigIfFrom(opener, 1);
  }

  /** The context line ` #if CONFIG_A` holds no multi-line comment marker. */
  lemma ContextOpenerOutsideComments(opener: string)
    requires opener == " #if CONFIG_A"
    ensures !HasCommentMarker(opener)
  {
    AbsentFirstChar(opener, CODE_ML_COMMENT_START_MARKER);
    AbsentFirstChar(opener, CODE_ML_COMMENT_END_MARKER);
  }

  lemma ContainsIfAt(s: string, j: nat)
    requires j + 3 <= |s| && s[j] == '#' && s[j + 1] == 'i' && s[j + 2] == 'f'
    ensures Contains(s, "#if")
  {
    assert OccursAt(s, "#if", j);
  }

  /** `#if`, a delimiter and `CONFIG_` from index `j` on: CODE_VAR_IF_START_PATTERN accepts the line. */
  lemma ConfigIfFrom(s: string, j: nat)
    requires j + 11 <= |s| && s[j] == '#' && s[j + 1] == 'i' && s[j + 2] == 'f' && IsVarDelimiter(s[j + 3])
    requires s[j + 4] == 'C' && s[j + 5] == 'O' && s[j + 6] == 'N' && s[j + 7] == 'F'
    requires s[j + 8] == 'I' && s[j + 9] == 'G' && s[j + 10] == '_'
    ensures VarIfStartPattern(s)
  {
    IfOnConfig(s[j..]);
    assert VarIfStartAt(s, j);
  }

  /** An unchanged line with no `#`, no comment marker and no continuation. */
  lemma PlainContextLine(line: string)
    requires line == " foo();"
    ensures !Contains(line, "#if") && !Contains(line, "#endif") && !HasCommentMarker(line)
    ensures !EndsWithContinuation(line)
  {
    AbsentFirstChar(line, "#if");
    AbsentFirstChar(line, "#endif");
    AbsentFirstChar(line, CODE_ML_COMMENT_START_MARKER);
    AbsentFirstChar(line, CODE_ML_COMMENT_END_MARKER);
  }

  /** The deleted line `-#endif` is an `#endif` directive. */
  lemma DeletedEndifLine(close: string)
    requires close == "-#endif"
    ensures DirectiveAt(close, 1, "endif")
  {
    SkipSpacesIff(close, 2, 2);
    assert close[2..][..5] == "endif";
  }

  /** A deleted `#endif` whose block opens on an unchanged `#if` with a `CONFIG_` option is relevant
      under both policies: the backtracking finds the opener on the stored context line. */
  lemma DeletedEndifOfConfigBlockIsRelevant()
    ensures var lines := [" #if CONFIG_A", " foo();", "-#endif"];
      Relevant(lines, false, 2) && Relevant(lines, true, 2)
  {
    var lines := [" #if CONFIG_A", " foo();", "-#endif"];
    ContextConfigOpener(lines[0]);
    ContextOpenerOutsideComments(lines[0]);
    PlainContextLine(lines[1]);
    assert !InComment(lines, 2);
    assert ContinuationStart(lines, 2) == 2;
    DeletedEndifLine(lines[2]);
    assert BacktrackFrom(lines, 2, '+', 0, 0);
    assert ConditionIsConfig(lines, 2);
  }
}
