/** The code classifier: whether a changed line of a C source file touches a preprocessor block
    (`#if`, `#ifdef`, `#ifndef`, `#elif`, `#else`, `#endif`), and, unless every block counts, whether
    that block refers to a `CONFIG_` option.

    `lines` is the diff's line buffer (`diffLines`), which never changes once the diff is built, so
    every member takes it as a parameter. Each loop of the classifier is a method proved equal to a
    recursive specification function of the same scan; the lemmas at the end characterise those
    functions. */
module CodeFileDiff {
  import opened Strings
  import opened DiffMarkers
  import opened CodePatterns

  /* ------------------------------------------------------------------------------------------ */
  /* Specification                                                                              */
  /* ------------------------------------------------------------------------------------------ */

  // Step 2 of `normalize`, as the code writes it: comment text is cut out of a line whose marker
  // is already gone by splitting it at the comment markers.
  function StripComments(t: string): string {
    if Contains(t, CODE_SL_COMMENT_MARKER) then
      var parts := Split(t, CODE_SL_COMMENT_MARKER);
      if |parts| > 0 then parts[0] else ""
    else if Contains(t, CODE_ML_COMMENT_START_MARKER) then
      if Contains(t, CODE_ML_COMMENT_END_MARKER) then
        var startParts := Split(t, CODE_ML_COMMENT_START_MARKER);
        var beforeCommentStart := if |startParts| > 0 then startParts[0] else "";
        var endParts := Split(t, CODE_ML_COMMENT_END_MARKER);
        var afterCommentEnd := if |endParts| > 1 then endParts[1] else "";
        beforeCommentStart + " " + afterCommentEnd
      else
        var parts := Split(t, CODE_ML_COMMENT_START_MARKER);
        if |parts| > 0 then parts[0] else ""
    else if Contains(t, CODE_ML_COMMENT_END_MARKER) then
      var parts := Split(t, CODE_ML_COMMENT_END_MARKER);
      if |parts| > 1 then parts[1] else ""
    else t
  }

  // What step 2 keeps, stated by the first and second occurrences of the markers: `//` wins over
  // the multi-line markers; an opener `/*` keeps what precedes it; a closer `*/` keeps what
  // follows it up to a second closer; both together keep the text before the opener, a space,
  // and the text after the closer.
  function CommentsRemoved(t: string): string {
    if Contains(t, "//") then Before(t, "//")
    else if Contains(t, "/*") && Contains(t, "*/") then Before(t, "/*") + " " + Segment(t, "*/")
    else if Contains(t, "/*") then Before(t, "/*")
    else if Contains(t, "*/") then Segment(t, "*/")
    else t
  }

  /** The splitting code removes exactly the comment text that `CommentsRemoved` describes. */
  lemma StripCommentsRemovesComments(t: string)
    ensures StripComments(t) == CommentsRemoved(t)
  {
  }

  // A stored line holding a multi-line comment marker, a closer or an opener.
  predicate HasCommentMarker(line: string) {
    Contains(line, CODE_ML_COMMENT_END_MARKER) || Contains(line, CODE_ML_COMMENT_START_MARKER)
  }

  /** The backward scan of `isPartOfComment` from index `c` down to 0. */
  function CommentScan(lines: seq<string>, c: int): bool
    requires c < |lines|
    decreases c + 1
  {
    if c < 0 then false
    else if Contains(lines[c], CODE_ML_COMMENT_END_MARKER) then false
    else if Contains(lines[c], CODE_ML_COMMENT_START_MARKER) then true
    else CommentScan(lines, c - 1)
  }

  /** `isPartOfComment(p)`: the line at `p` lies inside a multi-line comment. */
  predicate InComment(lines: seq<string>, p: nat)
    requires p <= |lines|
  {
    CommentScan(lines, p - 1)
  }

  /** `normalize(line, p)`: marker and comment text removed; a line inside a multi-line comment
      that still holds text becomes "". */
  function Normalized(lines: seq<string>, line: string, p: nat): string
    requires p < |lines|
  {
    var t := CommentsRemoved(StripMarker(line));
    if !IsBlank(t) && InComment(lines, p) then "" else t
  }

  /** Every line of the buffer normalised at its own index, the way the scans read them. */
  function NormalizedLines(lines: seq<string>): (norm: seq<string>)
    ensures |norm| == |lines|
  {
    NormalizedPrefix(lines, |lines|)
  }

  function NormalizedPrefix(lines: seq<string>, n: nat): (norm: seq<string>)
    requires n <= |lines|
    ensures |norm| == n
  {
    if n == 0 then [] else NormalizedPrefix(lines, n - 1) + [Normalized(lines, lines[n - 1], n - 1)]
  }

  lemma {:induction false} NormalizedPrefixAt(lines: seq<string>, n: nat, k: nat)
    requires k < n <= |lines|
    ensures NormalizedPrefix(lines, n)[k] == Normalized(lines, lines[k], k)
  {
    var prev := NormalizedPrefix(lines, n - 1);
    assert NormalizedPrefix(lines, n) == prev + [Normalized(lines, lines[n - 1], n - 1)];
    if k < n - 1 {
      assert NormalizedPrefix(lines, n)[k] == prev[k];
      NormalizedPrefixAt(lines, n - 1, k);
    }
  }

  /** `indexOfContinuationStart(p)`: the first line of the statement that line `p` belongs to. */
  function ContinuationStart(lines: seq<string>, p: nat): (s: nat)
    requires p < |lines|
    ensures s <= p
    ensures forall k :: s <= k < p ==> EndsWithContinuation(lines[k])
    ensures s == 0 || !EndsWithContinuation(lines[s - 1])
    decreases p
  {
    if p > 0 && EndsWithContinuation(lines[p - 1]) then
      var s := ContinuationStart(lines, p - 1);
      assert forall k :: s <= k < p ==> EndsWithContinuation(lines[k]) by {
        forall k | s <= k < p ensures EndsWithContinuation(lines[k]) {
          if k < p - 1 {}
        }
      }
      s
    else p
  }

  /** `isBlock(line)`: CODE_IFDEF_PATTERN, CODE_IF_PATTERN or CODE_IF_END_PATTERN matches. */
  predicate IsBlock(line: string) {
    IfdefPattern(line) || IfPattern(line) || IfEndPattern(line)
  }

  /** `invertChangeType(c)`: turns one change marker into the other; anything but `+` gives `+`. */
  function InvertChangeType(changeType: char): (r: char)
    ensures r == LINE_ADDED_MARKER || r == LINE_DELETED_MARKER
    ensures IsChanged([changeType]) ==> r != changeType
    ensures !IsChanged([changeType]) ==> r == LINE_ADDED_MARKER
  {
    if changeType == LINE_ADDED_MARKER then LINE_DELETED_MARKER else LINE_ADDED_MARKER
  }

  /** The continuation loop of `isConfigBlock`, from index `k`: the first normalised line with a
      `CONFIG_` reference, before one that does not continue, decides. */
  function ContinuationHasConfig(lines: seq<string>, k: nat): bool
    decreases |lines| - k
  {
    if k >= |lines| then false
    else
      var continuingLine := NormalizedLines(lines)[k];
      if VarPattern(continuingLine) then true
      else if !EndsWithContinuation(continuingLine) then false
      else ContinuationHasConfig(lines, k + 1)
  }

  /** The do-while of `backtrackPreprocessorCondition` from index `b`: the normalised lines that
      continue the condition, up to the block end `e`, refer to a `CONFIG_` option. */
  function ConditionContinuationHasConfig(lines: seq<string>, b: nat, e: nat): bool
    requires b <= e < |lines|
    decreases e - b
  {
    var blockLine := NormalizedLines(lines)[b];
    VarPattern(blockLine) ||
    (b + 1 < e && EndsWithContinuation(blockLine) && ConditionContinuationHasConfig(lines, b + 1, e))
  }

  /** The backward loop of `backtrackPreprocessorCondition` at index `c`, with `nested` block ends
      still open. The lines are the stored ones, markers included. */
  function BacktrackFrom(lines: seq<string>, e: nat, inverted: char, c: int, nested: nat): bool
    requires e < |lines| && c < e
    decreases c + 1
  {
    if c < 0 then false
    else
      var diffLine := lines[c];
      if nested == 0 && !IfEndPattern(diffLine) && Contains(diffLine, "#if") then
        if VarIfStartPattern(diffLine) then true
        else if EndsWithContinuation(diffLine) then ConditionContinuationHasConfig(lines, c + 1, e)
        else false
      else if |diffLine| > 0 && diffLine[0] != inverted && Contains(diffLine, "#endif") then
        BacktrackFrom(lines, e, inverted, c - 1, nested + 1)
      else if nested > 0 && Contains(diffLine, "#if") then
        BacktrackFrom(lines, e, inverted, c - 1, nested - 1)
      else
        BacktrackFrom(lines, e, inverted, c - 1, nested)
  }

  /** `backtrackPreprocessorCondition(e)`: the condition of the block that the `#else`/`#endif`
      line `e` closes refers to a `CONFIG_` option. */
  predicate ConditionIsConfig(lines: seq<string>, e: nat)
    requires e < |lines| && IfEndPattern(lines[e])
  {
    BacktrackFrom(lines, e, InvertChangeType(lines[e][0]), e - 1, 0)
  }

  /** A line with a `CONFIG_` reference that continues a statement whose stored first line is an
      opener or `#else` (the test on lines that are neither in `containsConfigBlocks`). */
  predicate ContinuesOpener(lines: seq<string>, c: nat)
    requires c < |lines|
  {
    var start := ContinuationStart(lines, c);
    start != c && IsOpenerOrElse(lines[start])
  }

  /** The backward loop of `containsConfigBlocks` at index `c`. */
  function BackwardScan(lines: seq<string>, cleanLine: string, c: int, nested: nat): bool
    requires c < |lines|
    decreases c + 1
  {
    if c < 0 then false
    else
      var diffLine := NormalizedLines(lines)[c];
      if EndIfPattern(cleanLine) then BackwardScan(lines, cleanLine, c - 1, nested + 1)
      else if IsOpenerOrElse(diffLine) then
        if nested == 0 then VarPattern(diffLine) else BackwardScan(lines, cleanLine, c - 1, nested - 1)
      else if VarPattern(diffLine) && ContinuesOpener(lines, c) then true
      else BackwardScan(lines, cleanLine, c - 1, nested)
  }

  /** The forward loop of `containsConfigBlocks` at index `c`. */
  function ForwardScan(lines: seq<string>, cleanLine: string, c: nat, nested: nat): bool
    decreases |lines| - c
  {
    if c >= |lines| then false
    else
      var diffLine := NormalizedLines(lines)[c];
      if IsOpenerOrElse(diffLine) then
        VarPattern(diffLine) || ForwardScan(lines, cleanLine, c + 1, nested + 1)
      else if EndIfPattern(cleanLine) then
        if nested == 0 then false else ForwardScan(lines, cleanLine, c + 1, nested - 1)
      else if VarPattern(diffLine) && ContinuesOpener(lines, c) then true
      else ForwardScan(lines, cleanLine, c + 1, nested)
  }

  /** `containsConfigBlocks(cleanLine, p, backward)`. */
  predicate NestedConfigBlocks(lines: seq<string>, cleanLine: string, p: nat, backward: bool)
    requires p < |lines|
  {
    if backward then BackwardScan(lines, cleanLine, p - 1, 0) else ForwardScan(lines, cleanLine, p + 1, 0)
  }

  /** `isConfigBlock(lines[p], p)`: the block statement at `p` refers to a `CONFIG_` option. */
  predicate ConfigBlock(lines: seq<string>, p: nat)
    requires p < |lines|
  {
    var line := lines[p];
    if VarIfdefPattern(line) || VarIfPattern(line) then true
    else if EndsWithContinuation(line) then ContinuationHasConfig(lines, p + 1)
    else IfEndPattern(line) && ConditionIsConfig(lines, p)
  }

  /** `checkForConfigBlocks(lines[p], p)`. */
  predicate ConfigBlockChange(lines: seq<string>, p: nat)
    requires p < |lines|
  {
    ConfigBlock(lines, p) ||
    (IsBlock(lines[p]) && NestedConfigBlocks(lines, lines[p], p, EndIfPattern(lines[p])))
  }

  /** `isRelevantChange(_, p)`: outside a multi-line comment, the STORED first line of the
      statement (marker included) is a block, or, unless `considerAllBlocks`, a block referring
      to a `CONFIG_` option. */
  predicate Relevant(lines: seq<string>, considerAllBlocks: bool, p: nat)
    requires p < |lines|
  {
    !InComment(lines, p) &&
    var start := ContinuationStart(lines, p);
    if considerAllBlocks then IsBlock(lines[start]) else ConfigBlockChange(lines, start)
  }

  /* ------------------------------------------------------------------------------------------ */
  /* The classifier's methods                                                                   */
  /* ------------------------------------------------------------------------------------------ */

  method IsPartOfComment(lines: seq<string>, p: nat) returns (isPartOfComment: bool)
    requires p <= |lines|
    ensures isPartOfComment == InComment(lines, p)
  {
    isPartOfComment := false;
    var diffLineCounter: int := p - 1;
    var commentMarkerFound := false;
    while diffLineCounter >= 0 && !commentMarkerFound
      invariant -1 <= diffLineCounter < p
      invariant !commentMarkerFound ==> !isPartOfComment && InComment(lines, p) == CommentScan(lines, diffLineCounter)
      invariant commentMarkerFound ==> isPartOfComment == InComment(lines, p)
      decreases diffLineCounter + 1
    {
      var previousDiffLine := lines[diffLineCounter];
      if Contains(previousDiffLine, CODE_ML_COMMENT_END_MARKER) {
        commentMarkerFound := true;
      } else if Contains(previousDiffLine, CODE_ML_COMMENT_START_MARKER) {
        commentMarkerFound := true;
        isPartOfComment := true;
      }
      diffLineCounter := diffLineCounter - 1;
    }
  }

  /** `normalize(diffLines.get(p), p)`: every caller passes the stored line at `p` with its index. */
  method Normalize(lines: seq<string>, p: nat) returns (normalizedDiffLine: string)
    requires p < |lines|
    ensures normalizedDiffLine == NormalizedLines(lines)[p]
  {
    normalizedDiffLine := StripComments(StripMarker(lines[p]));
    StripCommentsRemovesComments(StripMarker(lines[p]));
    if !IsBlank(normalizedDiffLine) {
      var inComment := IsPartOfComment(lines, p);
      if inComment {
        normalizedDiffLine := "";
      }
    }
    NormalizedPrefixAt(lines, |lines|, p);
  }

  method IndexOfContinuationStart(lines: seq<string>, p: nat) returns (startIndex: nat)
    requires p < |lines|
    ensures startIndex == ContinuationStart(lines, p)
  {
    startIndex := p;
    var diffLineCounter: int := p - 1;
    while diffLineCounter >= 0 && EndsWithContinuation(lines[diffLineCounter])
      invariant diffLineCounter == startIndex - 1 && startIndex <= p
      invariant ContinuationStart(lines, p) == ContinuationStart(lines, startIndex)
      decreases diffLineCounter + 1
    {
      startIndex := diffLineCounter;
      diffLineCounter := diffLineCounter - 1;
    }
  }

  method IsRelevantChange(lines: seq<string>, considerAllBlocks: bool, cleanDiffLine: string, p: nat)
    returns (isRelevantChange: bool)
    requires p < |lines|
    ensures isRelevantChange == Relevant(lines, considerAllBlocks, p)
  {
    isRelevantChange := false;
    var inComment := IsPartOfComment(lines, p);
    if !inComment {
      var startIndex := IndexOfContinuationStart(lines, p);
      var startDiffLine := lines[startIndex];
      if considerAllBlocks {
        isRelevantChange := IsBlock(startDiffLine);
      } else {
        isRelevantChange := CheckForConfigBlocks(lines, startIndex);
      }
    }
  }

  /** `checkForConfigBlocks` on the stored line at `p`, the only line its caller passes. */
  method CheckForConfigBlocks(lines: seq<string>, p: nat) returns (isRelevantChange: bool)
    requires p < |lines|
    ensures isRelevantChange == ConfigBlockChange(lines, p)
  {
    var cleanDiffLine := lines[p];
    isRelevantChange := false;
    var configBlock := IsConfigBlock(lines, p);
    if configBlock {
      isRelevantChange := true;
    } else if IsBlock(cleanDiffLine) {
      isRelevantChange := ContainsConfigBlocks(lines, cleanDiffLine, p, EndIfPattern(cleanDiffLine));
    }
  }

  method ContainsConfigBlocks(lines: seq<string>, cleanDiffLine: string, p: nat, backwardSearch: bool)
    returns (containsConfigBlocks: bool)
    requires p < |lines|
    ensures containsConfigBlocks == NestedConfigBlocks(lines, cleanDiffLine, p, backwardSearch)
  {
    if backwardSearch {
      containsConfigBlocks := SearchBackward(lines, cleanDiffLine, p);
    } else {
      containsConfigBlocks := SearchForward(lines, cleanDiffLine, p);
    }
  }

  /** The backward branch of `containsConfigBlocks`. */
  method SearchBackward(lines: seq<string>, cleanDiffLine: string, p: nat) returns (containsConfigBlocks: bool)
    requires p < |lines|
    ensures containsConfigBlocks == BackwardScan(lines, cleanDiffLine, p - 1, 0)
  {
    containsConfigBlocks := false;
    var counterpartFound := false;
    var nestedBlocksCounter: nat := 0;
    var diffLineCounter: int := p - 1;
    while !containsConfigBlocks && !counterpartFound && diffLineCounter >= 0
      invariant -1 <= diffLineCounter < p
      invariant !containsConfigBlocks && !counterpartFound ==>
                  BackwardScan(lines, cleanDiffLine, p - 1, 0) ==
                  BackwardScan(lines, cleanDiffLine, diffLineCounter, nestedBlocksCounter)
      invariant containsConfigBlocks || counterpartFound ==>
                  containsConfigBlocks == BackwardScan(lines, cleanDiffLine, p - 1, 0)
      decreases diffLineCounter + 1
    {
      var diffLine := Normalize(lines, diffLineCounter);
      if EndIfPattern(cleanDiffLine) {
        nestedBlocksCounter := nestedBlocksCounter + 1;
      } else if IsOpenerOrElse(diffLine) {
        if nestedBlocksCounter == 0 {
          counterpartFound := true;
          containsConfigBlocks := VarPattern(diffLine);
        } else {
          nestedBlocksCounter := nestedBlocksCounter - 1;
        }
      } else if VarPattern(diffLine) {
        var continuationStart := IndexOfContinuationStart(lines, diffLineCounter);
        if continuationStart != diffLineCounter && IsOpenerOrElse(lines[continuationStart]) {
          containsConfigBlocks := true;
        }
      }
      diffLineCounter := diffLineCounter - 1;
    }
  }

  /** The forward branch of `containsConfigBlocks`; nothing in it sets `counterpartFound`. */
  method SearchForward(lines: seq<string>, cleanDiffLine: string, p: nat) returns (containsConfigBlocks: bool)
    requires p < |lines|
    ensures containsConfigBlocks == ForwardScan(lines, cleanDiffLine, p + 1, 0)
  {
    containsConfigBlocks := false;
    var counterpartFound := false;
    var nestedBlocksCounter: nat := 0;
    var diffLineCounter := p + 1;
    while !containsConfigBlocks && !counterpartFound && diffLineCounter < |lines|
      invariant p + 1 <= diffLineCounter
      invariant !containsConfigBlocks && !counterpartFound ==>
                  ForwardScan(lines, cleanDiffLine, p + 1, 0) ==
                  ForwardScan(lines, cleanDiffLine, diffLineCounter, nestedBlocksCounter)
      invariant containsConfigBlocks || counterpartFound ==>
                  containsConfigBlocks == ForwardScan(lines, cleanDiffLine, p + 1, 0)
      decreases |lines| - diffLineCounter
    {
      var diffLine := Normalize(lines, diffLineCounter);
      if IsOpenerOrElse(diffLine) {
        nestedBlocksCounter := nestedBlocksCounter + 1;
        containsConfigBlocks := VarPattern(diffLine);
      } else if EndIfPattern(cleanDiffLine) {
        if nestedBlocksCounter == 0 {
          counterpartFound := true;
        } else {
          nestedBlocksCounter := nestedBlocksCounter - 1;
        }
      } else if VarPattern(diffLine) {
        var continuationStart := IndexOfContinuationStart(lines, diffLineCounter);
        if continuationStart != diffLineCounter && IsOpenerOrElse(lines[continuationStart]) {
          containsConfigBlocks := true;
        }
      }
      diffLineCounter := diffLineCounter + 1;
    }
  }

  /** `isConfigBlock` on the stored line at `p`, the only line its caller passes. */
  method IsConfigBlock(lines: seq<string>, p: nat) returns (isConfigBlock: bool)
    requires p < |lines|
    ensures isConfigBlock == ConfigBlock(lines, p)
  {
    var cleanDiffLine := lines[p];
    isConfigBlock := false;
    if VarIfdefPattern(cleanDiffLine) || VarIfPattern(cleanDiffLine) {
      isConfigBlock := true;
    } else if EndsWithContinuation(cleanDiffLine) {
      var isContinuing := true;
      var diffLineCounter := p + 1;
      while !isConfigBlock && isContinuing && diffLineCounter < |lines|
        invariant p + 1 <= diffLineCounter <= |lines|
        invariant !isConfigBlock && isContinuing ==>
                    ConfigBlock(lines, p) == ContinuationHasConfig(lines, diffLineCounter)
        invariant isConfigBlock ==> ConfigBlock(lines, p)
        invariant !isContinuing ==> !isConfigBlock && !ConfigBlock(lines, p)
        decreases |lines| - diffLineCounter
      {
        var continuingLine := Normalize(lines, diffLineCounter);
        if VarPattern(continuingLine) {
          isConfigBlock := true;
        } else if !EndsWithContinuation(continuingLine) {
          isContinuing := false;
        }
        diffLineCounter := diffLineCounter + 1;
      }
    } else if IfEndPattern(cleanDiffLine) {
      isConfigBlock := BacktrackPreprocessorCondition(lines, p);
    }
  }

  /** `backtrackPreprocessorCondition(blockEndIndex)`. It is only reached for a line matching
      CODE_IF_END_PATTERN, which holds a `#`, so reading the line's first character is safe. The
      nesting counter is a `nat`: it is only decremented while positive. */
  method BacktrackPreprocessorCondition(lines: seq<string>, blockEndIndex: nat)
    returns (conditionIsVariabilityRelated: bool)
    requires blockEndIndex < |lines| && IfEndPattern(lines[blockEndIndex])
    ensures conditionIsVariabilityRelated == ConditionIsConfig(lines, blockEndIndex)
  {
    var blockEndLine := lines[blockEndIndex];
    var blockEndChangeType := blockEndLine[0];
    var invertedBlockEndChangeType := InvertChangeType(blockEndChangeType);
    conditionIsVariabilityRelated := false;
    var conditionFound := false;
    var nestedEndifCounter: nat := 0;
    var diffLinesCounter: int := blockEndIndex - 1;
    while !conditionFound && diffLinesCounter >= 0
      invariant -1 <= diffLinesCounter < blockEndIndex
      invariant !conditionFound ==>
                  !conditionIsVariabilityRelated &&
                  ConditionIsConfig(lines, blockEndIndex) ==
                  BacktrackFrom(lines, blockEndIndex, invertedBlockEndChangeType, diffLinesCounter, nestedEndifCounter)
      invariant conditionFound ==> conditionIsVariabilityRelated == ConditionIsConfig(lines, blockEndIndex)
      decreases diffLinesCounter + 1
    {
      var diffLine := lines[diffLinesCounter];
      if nestedEndifCounter == 0 && !IfEndPattern(diffLine) && Contains(diffLine, "#if") {
        conditionFound := true;
        if VarIfStartPattern(diffLine) {
          conditionIsVariabilityRelated := true;
        } else if EndsWithContinuation(diffLine) {
          conditionIsVariabilityRelated := ConditionContinues(lines, diffLinesCounter + 1, blockEndIndex);
        }
      } else {
        if |diffLine| > 0 && diffLine[0] != invertedBlockEndChangeType && Contains(diffLine, "#endif") {
          nestedEndifCounter := nestedEndifCounter + 1;
        } else if nestedEndifCounter > 0 && Contains(diffLine, "#if") {
          nestedEndifCounter := nestedEndifCounter - 1;
        }
      }
      diffLinesCounter := diffLinesCounter - 1;
    }
  }

  /** The do-while of `backtrackPreprocessorCondition`, over the lines from `first` that continue
      the condition; the body runs at least once. */
  method ConditionContinues(lines: seq<string>, first: nat, blockEndIndex: nat) returns (conditionIsVariabilityRelated: bool)
    requires first <= blockEndIndex < |lines|
    ensures conditionIsVariabilityRelated == ConditionContinuationHasConfig(lines, first, blockEndIndex)
  {
    conditionIsVariabilityRelated := false;
    var blockLinesCounter := first;
    var again := true;
    while again
      invariant first <= blockLinesCounter <= blockEndIndex + 1
      invariant again ==> blockLinesCounter <= blockEndIndex
      invariant again ==>
                  ConditionContinuationHasConfig(lines, first, blockEndIndex) ==
                  (conditionIsVariabilityRelated ||
                   ConditionContinuationHasConfig(lines, blockLinesCounter, blockEndIndex))
      invariant !again ==>
                  ConditionContinuationHasConfig(lines, first, blockEndIndex) == conditionIsVariabilityRelated
      decreases if again then blockEndIndex + 1 - blockLinesCounter else 0
    {
      var blockLine := Normalize(lines, blockLinesCounter);
      if VarPattern(blockLine) {
        conditionIsVariabilityRelated := true;
      }
      blockLinesCounter := blockLinesCounter + 1;
      again := blockLinesCounter < blockEndIndex && EndsWithContinuation(blockLine);
    }
  }
}
