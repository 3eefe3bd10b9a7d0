/** The harness every classifier shares: a diff's type, its line buffer, the block policy of the
    code classifier and the verdict, and the loop that hands each changed, non-blank line to the
    classifier of the diff's type until one of them is relevant.

    The source runs the analysis from the constructor through two overridden methods; here a
    `FileDiff` is constructed first and evaluated by `AnalyzeDiff` afterwards, and the overridden
    `normalize` and `isRelevantChange` dispatch on the file type. */
module FileDiffs {
  import opened Strings
  import opened DiffMarkers
  import CodeFileDiff
  import VariabilityModelFileDiff

  /** The kind of file a diff belongs to. */
  datatype FileType = Code | Build | VariabilityModel | Other

  /** The file types whose classifiers are part of this model. */
  predicate IsModelled(fileType: FileType) {
    fileType == Code || fileType == VariabilityModel
  }

  /* ------------------------------------------------------------------------------------------ */
  /* What one analysis computes                                                                 */
  /* ------------------------------------------------------------------------------------------ */

  /** `normalize(lines[i], i)` of the classifier for `fileType`. */
  function NormalizedAt(fileType: FileType, lines: seq<string>, i: nat): string
    requires IsModelled(fileType) && i < |lines|
  {
    if fileType == Code then CodeFileDiff.NormalizedLines(lines)[i]
    else VariabilityModelFileDiff.Normalize(lines[i])
  }

  /** `isRelevantChange(normalize(lines[i], i), i)` of the classifier for `fileType`. */
  predicate RelevantAt(fileType: FileType, lines: seq<string>, considerAllBlocks: bool, i: nat)
    requires IsModelled(fileType) && i < |lines|
  {
    if fileType == Code then CodeFileDiff.Relevant(lines, considerAllBlocks, i)
    else VariabilityModelFileDiff.Relevant(lines, NormalizedAt(fileType, lines, i), i)
  }

  /** The line at `i` carries a marker and something other than blanks after it: the loop
      normalises it. */
  predicate Marked(lines: seq<string>, i: nat)
    requires i < |lines|
  {
    IsChanged(lines[i]) && !IsBlank(lines[i][1..])
  }

  /** The line at `i` is marked and does not normalise to blanks: the loop classifies it. */
  predicate Reaches(fileType: FileType, lines: seq<string>, i: nat)
    requires IsModelled(fileType) && i < |lines|
  {
    Marked(lines, i) && !IsBlank(NormalizedAt(fileType, lines, i))
  }

  /** The line at `i` is classified and found relevant. */
  predicate RelevantLine(fileType: FileType, lines: seq<string>, considerAllBlocks: bool, i: nat)
    requires IsModelled(fileType) && i < |lines|
  {
    Reaches(fileType, lines, i) && RelevantAt(fileType, lines, considerAllBlocks, i)
  }

  /** What the loop does with one line: leaves it alone, normalises it to blanks, or classifies it
      as not relevant or as relevant. */
  datatype LineOutcome = Skipped | NormalizedBlank | NotRelevant | Relevant

  /** The outcome of the line at `i`, had the loop reached it. */
  function Outcome(fileType: FileType, lines: seq<string>, considerAllBlocks: bool, i: nat): (o: LineOutcome)
    requires IsModelled(fileType) && i < |lines|
    ensures o != Skipped <==> Marked(lines, i)
    ensures o == NotRelevant || o == Relevant <==> Reaches(fileType, lines, i)
    ensures o == Relevant <==> RelevantLine(fileType, lines, considerAllBlocks, i)
  {
    if !Marked(lines, i) then Skipped
    else if IsBlank(NormalizedAt(fileType, lines, i)) then NormalizedBlank
    else if RelevantAt(fileType, lines, considerAllBlocks, i) then Relevant
    else NotRelevant
  }

  /** The outcomes of the first `n` lines. */
  function Outcomes(fileType: FileType, lines: seq<string>, considerAllBlocks: bool, n: nat): (outs: seq<LineOutcome>)
    requires IsModelled(fileType) && n <= |lines|
    ensures |outs| == n
  {
    if n == 0 then [] else Outcomes(fileType, lines, considerAllBlocks, n - 1) + [Outcome(fileType, lines, considerAllBlocks, n - 1)]
  }

  lemma {:induction false} OutcomesAt(fileType: FileType, lines: seq<string>, considerAllBlocks: bool, n: nat, k: nat)
    requires IsModelled(fileType) && k < n <= |lines|
    ensures Outcomes(fileType, lines, considerAllBlocks, n)[k] == Outcome(fileType, lines, considerAllBlocks, k)
  {
    if k < n - 1 {
      OutcomesAt(fileType, lines, considerAllBlocks, n - 1, k);
    }
  }

  /** The outcomes of every line of the diff. */
  function AllOutcomes(fileType: FileType, lines: seq<string>, considerAllBlocks: bool): (outs: seq<LineOutcome>)
    requires IsModelled(fileType)
    ensures |outs| == |lines|
  {
    Outcomes(fileType, lines, considerAllBlocks, |lines|)
  }

  /** The verdict of the loop started at index `i`. */
  predicate ScanFrom(outs: seq<LineOutcome>, i: nat)
    decreases |outs| - i
  {
    i < |outs| && (outs[i] == Relevant || ScanFrom(outs, i + 1))
  }

  /** The indices the loop started at `i` passes to `normalize`, in call order. */
  function NormalizeCalls(outs: seq<LineOutcome>, i: nat): seq<nat>
    decreases |outs| - i
  {
    if i >= |outs| then []
    else if outs[i] == Skipped then NormalizeCalls(outs, i + 1)
    else if outs[i] == Relevant then [i]
    else [i] + NormalizeCalls(outs, i + 1)
  }

  /** The indices the loop started at `i` passes to `isRelevantChange`, in call order. */
  function ClassifyCalls(outs: seq<LineOutcome>, i: nat): seq<nat>
    decreases |outs| - i
  {
    if i >= |outs| then []
    else if outs[i] == Skipped || outs[i] == NormalizedBlank then ClassifyCalls(outs, i + 1)
    else if outs[i] == Relevant then [i]
    else [i] + ClassifyCalls(outs, i + 1)
  }

  /** The verdict of a whole analysis. */
  predicate Verdict(fileType: FileType, lines: seq<string>, considerAllBlocks: bool)
    requires IsModelled(fileType)
  {
    ScanFrom(AllOutcomes(fileType, lines, considerAllBlocks), 0)
  }

  /* ------------------------------------------------------------------------------------------ */
  /* The loop                                                                                   */
  /* ------------------------------------------------------------------------------------------ */

  /** The overridden `normalize(diffLine, diffLinePosition)` of the classifier for `fileType`;
      the harness passes the stored line at that position. */
  method Normalize(fileType: FileType, lines: seq<string>, diffLine: string, diffLinePosition: nat)
    returns (normalizedDiffLine: string)
    requires IsModelled(fileType) && diffLinePosition < |lines| && diffLine == lines[diffLinePosition]
    ensures normalizedDiffLine == NormalizedAt(fileType, lines, diffLinePosition)
  {
    if fileType == Code {
      normalizedDiffLine := CodeFileDiff.Normalize(lines, diffLinePosition);
    } else {
      normalizedDiffLine := VariabilityModelFileDiff.Normalize(diffLine);
    }
  }

  /** The overridden `isRelevantChange(cleanDiffLine, cleanDiffLinePosition)` of the classifier for
      `fileType`; the harness passes the normalised line at that position. */
  method IsRelevantChange(fileType: FileType, lines: seq<string>, considerAllBlocks: bool,
                          cleanDiffLine: string, cleanDiffLinePosition: nat)
    returns (isRelevantChange: bool)
    requires IsModelled(fileType) && cleanDiffLinePosition < |lines|
    requires cleanDiffLine == NormalizedAt(fileType, lines, cleanDiffLinePosition)
    ensures isRelevantChange == RelevantAt(fileType, lines, considerAllBlocks, cleanDiffLinePosition)
  {
    if fileType == Code {
      isRelevantChange := CodeFileDiff.IsRelevantChange(lines, considerAllBlocks, cleanDiffLine, cleanDiffLinePosition);
    } else {
      isRelevantChange := VariabilityModelFileDiff.IsRelevantChange(lines, cleanDiffLine, cleanDiffLinePosition);
    }
  }

  /** The body of the loop of `analyzeDiff` for the line at `lineCounter`. */
  method AnalyzeLine(fileType: FileType, lines: seq<string>, considerAllBlocks: bool, lineCounter: nat)
    returns (outcome: LineOutcome)
    requires IsModelled(fileType) && lineCounter < |lines|
    ensures outcome == AllOutcomes(fileType, lines, considerAllBlocks)[lineCounter]
  {
    outcome := Skipped;
    var diffLine := lines[lineCounter];
    if IsChanged(diffLine) {
      var diffLineNoMarker := diffLine[1..];
      BlankIsTrimEmpty(diffLineNoMarker);
      if Trim(diffLineNoMarker) != [] {
        outcome := NormalizedBlank;
        diffLine := Normalize(fileType, lines, diffLine, lineCounter);
        BlankIsTrimEmpty(diffLine);
        if Trim(diffLine) != [] {
          var changeRelevant := IsRelevantChange(fileType, lines, considerAllBlocks, diffLine, lineCounter);
          outcome := if changeRelevant then Relevant else NotRelevant;
        }
      }
    }
    OutcomesAt(fileType, lines, considerAllBlocks, |lines|, lineCounter);
  }

  /** At a skipped line the loop goes on without calls. */
  lemma ScanSkipped(outs: seq<LineOutcome>, i: nat)
    requires i < |outs| && outs[i] == Skipped
    ensures ScanFrom(outs, i) == ScanFrom(outs, i + 1)
    ensures NormalizeCalls(outs, i) == NormalizeCalls(outs, i + 1)
    ensures ClassifyCalls(outs, i) == ClassifyCalls(outs, i + 1)
  {
  }

  /** At a line that normalises to blanks the loop goes on after one call to `normalize`. */
  lemma ScanNormalizedBlank(outs: seq<LineOutcome>, i: nat)
    requires i < |outs| && outs[i] == NormalizedBlank
    ensures ScanFrom(outs, i) == ScanFrom(outs, i + 1)
    ensures NormalizeCalls(outs, i) == [i] + NormalizeCalls(outs, i + 1)
    ensures ClassifyCalls(outs, i) == ClassifyCalls(outs, i + 1)
  {
  }

  /** At a line found not relevant the loop goes on after a call to each. */
  lemma ScanNotRelevant(outs: seq<LineOutcome>, i: nat)
    requires i < |outs| && outs[i] == NotRelevant
    ensures ScanFrom(outs, i) == ScanFrom(outs, i + 1)
    ensures NormalizeCalls(outs, i) == [i] + NormalizeCalls(outs, i + 1)
    ensures ClassifyCalls(outs, i) == [i] + ClassifyCalls(outs, i + 1)
  {
  }

  /** At a relevant line the loop ends after a call to each. */
  lemma ScanRelevant(outs: seq<LineOutcome>, i: nat)
    requires i < |outs| && outs[i] == Relevant
    ensures ScanFrom(outs, i)
    ensures NormalizeCalls(outs, i) == [i] && ClassifyCalls(outs, i) == [i]
  {
  }

  /** Appending one call to the trace so far. */
  lemma Shift(whole: seq<nat>, soFar: seq<nat>, i: nat, rest: seq<nat>)
    requires whole == soFar + ([i] + rest)
    ensures whole == (soFar + [i]) + rest
  {
  }

  /** The loop of `analyzeDiff` on a diff with no verdict yet: the verdict, and the indices passed
      to `normalize` and to `isRelevantChange`. */
  method ScanLines(fileType: FileType, lines: seq<string>, considerAllBlocks: bool)
    returns (changeRelevant: bool, ghost normalizedIndices: seq<nat>, ghost classifiedIndices: seq<nat>)
    requires IsModelled(fileType)
    ensures changeRelevant == Verdict(fileType, lines, considerAllBlocks)
    ensures normalizedIndices == NormalizeCalls(AllOutcomes(fileType, lines, considerAllBlocks), 0)
    ensures classifiedIndices == ClassifyCalls(AllOutcomes(fileType, lines, considerAllBlocks), 0)
  {
    ghost var outs := AllOutcomes(fileType, lines, considerAllBlocks);
    changeRelevant := false;
    normalizedIndices, classifiedIndices := [], [];
    var lineCounter := 0;
    while !changeRelevant && lineCounter < |lines|
      invariant lineCounter <= |lines|
      invariant !changeRelevant ==>
                  ScanFrom(outs, 0) == ScanFrom(outs, lineCounter) &&
                  NormalizeCalls(outs, 0) == normalizedIndices + NormalizeCalls(outs, lineCounter) &&
                  ClassifyCalls(outs, 0) == classifiedIndices + ClassifyCalls(outs, lineCounter)
      invariant changeRelevant ==>
                  ScanFrom(outs, 0) && normalizedIndices == NormalizeCalls(outs, 0) &&
                  classifiedIndices == ClassifyCalls(outs, 0)
      decreases |lines| - lineCounter
    {
      var outcome := AnalyzeLine(fileType, lines, considerAllBlocks, lineCounter);
      match outcome {
        case Skipped =>
          ScanSkipped(outs, lineCounter);
        case NormalizedBlank =>
          ScanNormalizedBlank(outs, lineCounter);
          Shift(NormalizeCalls(outs, 0), normalizedIndices, lineCounter, NormalizeCalls(outs, lineCounter + 1));
          normalizedIndices := normalizedIndices + [lineCounter];
        case NotRelevant =>
          ScanNotRelevant(outs, lineCounter);
          Shift(NormalizeCalls(outs, 0), normalizedIndices, lineCounter, NormalizeCalls(outs, lineCounter + 1));
          Shift(ClassifyCalls(outs, 0), classifiedIndices, lineCounter, ClassifyCalls(outs, lineCounter + 1));
          normalizedIndices := normalizedIndices + [lineCounter];
          classifiedIndices := classifiedIndices + [lineCounter];
        case Relevant =>
          ScanRelevant(outs, lineCounter);
          normalizedIndices := normalizedIndices + [lineCounter];
          classifiedIndices := classifiedIndices + [lineCounter];
          changeRelevant := true;
      }
      lineCounter := lineCounter + 1;
    }
  }

  /* ------------------------------------------------------------------------------------------ */
  /* The file diff                                                                              */
  /* ------------------------------------------------------------------------------------------ */

  class FileDiff {
    var fileType: FileType
    var diffLines: seq<string>
    /** Read by the code classifier only: all preprocessor blocks, or only those on `CONFIG_` options. */
    var considerAllBlocks: bool
    var changeRelevant: bool
    /** The indices the last analysis passed to `normalize` and to `isRelevantChange`, in order. */
    ghost var normalizedIndices: seq<nat>
    ghost var classifiedIndices: seq<nat>

    /** `FileDiff(fileType, diffLines)`, without the analysis: the block policy keeps its default. */
    constructor (fileType: FileType, diffLines: seq<string>)
      ensures this.fileType == fileType && this.diffLines == diffLines
      ensures !considerAllBlocks && !changeRelevant
      ensures normalizedIndices == [] && classifiedIndices == []
    {
      this.fileType := fileType;
      this.diffLines := diffLines;
      considerAllBlocks := false;
      changeRelevant := false;
      normalizedIndices := [];
      classifiedIndices := [];
    }

    /** `FileDiff(fileType, diffLines, considerAllBlocks)`, without the analysis. */
    constructor WithPolicy(fileType: FileType, diffLines: seq<string>, considerAllBlocks: bool)
      ensures this.fileType == fileType && this.diffLines == diffLines
      ensures this.considerAllBlocks == considerAllBlocks && !changeRelevant
      ensures normalizedIndices == [] && classifiedIndices == []
    {
      this.fileType := fileType;
      this.diffLines := diffLines;
      this.considerAllBlocks := considerAllBlocks;
      changeRelevant := false;
      normalizedIndices := [];
      classifiedIndices := [];
    }

    /** `analyzeDiff()`: the first relevant line decides; a verdict already set is kept and
        stops the loop before its first line. */
    method AnalyzeDiff()
      requires IsModelled(fileType)
      modifies this
      ensures fileType == old(fileType) && diffLines == old(diffLines) && considerAllBlocks == old(considerAllBlocks)
      ensures changeRelevant == (old(changeRelevant) || Verdict(fileType, diffLines, considerAllBlocks))
      ensures normalizedIndices ==
                if old(changeRelevant) then [] else NormalizeCalls(AllOutcomes(fileType, diffLines, considerAllBlocks), 0)
      ensures classifiedIndices ==
                if old(changeRelevant) then [] else ClassifyCalls(AllOutcomes(fileType, diffLines, considerAllBlocks), 0)
    {
      if changeRelevant {
        normalizedIndices, classifiedIndices := [], [];
      } else {
        changeRelevant, normalizedIndices, classifiedIndices := ScanLines(fileType, diffLines, considerAllBlocks);
      }
    }

    function GetFileType(): (r: FileType)
      reads this
      ensures r == fileType
    {
      fileType
    }

    function GetResult(): (r: bool)
      reads this
      ensures r == changeRelevant
    {
      changeRelevant
    }

    function GetDiffText(): (r: seq<string>)
      reads this
      ensures r == diffLines
    {
      diffLines
    }
  }
}
