/** The orchestrator: for one commit, every changed artifact whose path is not excluded is routed
    by path to the code, build or variability model classifier, and the verdicts are collected in
    an analysis result. */
module DiffAnalyzer {
  import opened Strings
  import opened FileDiffs

  /** A changed file of a commit: its path and its diff lines. */
  datatype ChangedArtifact = ChangedArtifact(artifactPath: string, content: seq<string>)

  datatype Commit = Commit(id: string, changedArtifacts: seq<ChangedArtifact>)

  /** The relevant code paths in the order found, and the two flags for build and model files. */
  datatype AnalysisResult = AnalysisResult(
    commitId: string,
    relevantCodeChanges: seq<string>,
    relevantBuildChanges: bool,
    relevantVariabilityModelChanges: bool)

  datatype Option<T> = None | Some(value: T)

  /** The user-supplied path regular expressions, each as the set of paths it matches. */
  datatype PathPatterns = PathPatterns(
    vmFilePattern: string -> bool,
    codeFilePattern: string -> bool,
    buildFilePattern: string -> bool)

  /* ------------------------------------------------------------------------------------------ */
  /* Excluded paths                                                                             */
  /* ------------------------------------------------------------------------------------------ */

  /** File extensions, without the dot, of files never analysed. */
  const FILE_EXTENSION_BLACKLIST: seq<string> := ["lb"]

  /** The directory names DOC_DIR_PATTERN `[dD]ocumentation(s)?` and SCRIPT_DIR_PATTERN
      `[sS]cript(s)?` accept. */
  const EXCLUDED_DIR_NAMES: seq<string> :=
    ["documentation", "Documentation", "documentations", "Documentations",
     "script", "Script", "scripts", "Scripts"]

  /** FILE_EXCLUDE_PATTERN, matched against the whole path: the path has a documentation or script
      directory segment somewhere, or it ends in `.txt`. */
  predicate ExcludedPath(path: string) {
    (exists i :: 0 <= i < |EXCLUDED_DIR_NAMES| && Contains(path, "/" + EXCLUDED_DIR_NAMES[i] + "/")) ||
    EndsWith(path, ".txt")
  }

  /** `isBlacklisted(path)`: once trimmed, the path ends in `.` and a blacklisted extension. */
  predicate Blacklisted(path: string) {
    exists e :: 0 <= e < |FILE_EXTENSION_BLACKLIST| && EndsWith(Trim(path), "." + FILE_EXTENSION_BLACKLIST[e])
  }

  method IsBlacklisted(changedFileDescriptionLine: string) returns (isBlacklisted: bool)
    ensures isBlacklisted == Blacklisted(changedFileDescriptionLine)
  {
    isBlacklisted := false;
    var blacklistCounter := 0;
    while blacklistCounter < |FILE_EXTENSION_BLACKLIST| && !isBlacklisted
      invariant 0 <= blacklistCounter <= |FILE_EXTENSION_BLACKLIST|
      invariant isBlacklisted ==
        exists e :: 0 <= e < blacklistCounter && EndsWith(Trim(changedFileDescriptionLine), "." + FILE_EXTENSION_BLACKLIST[e])
      decreases |FILE_EXTENSION_BLACKLIST| - blacklistCounter
    {
      var fileExtension := "." + FILE_EXTENSION_BLACKLIST[blacklistCounter];
      if EndsWith(Trim(changedFileDescriptionLine), fileExtension) {
        isBlacklisted := true;
      }
      blacklistCounter := blacklistCounter + 1;
    }
  }

  /** The path is left out of the analysis: empty, excluded or blacklisted. */
  predicate Ignored(path: string) {
    path == [] || ExcludedPath(path) || Blacklisted(path)
  }

  /* ------------------------------------------------------------------------------------------ */
  /* What one analysis computes                                                                 */
  /* ------------------------------------------------------------------------------------------ */

  /** The result right after `setCommitId`. */
  function InitialResult(commitId: string): AnalysisResult {
    AnalysisResult(commitId, [], false, false)
  }

  /** The path is analysed as code. */
  predicate RoutedToCode(patterns: PathPatterns, path: string) {
    !Ignored(path) && patterns.codeFilePattern(path)
  }

  /** The path is analysed as a build file, given the result so far. */
  predicate RoutedToBuild(patterns: PathPatterns, r: AnalysisResult, path: string) {
    !Ignored(path) && !patterns.codeFilePattern(path) &&
    !r.relevantBuildChanges && patterns.buildFilePattern(path)
  }

  /** The path is analysed as a variability model file, given the result so far. */
  predicate RoutedToModel(patterns: PathPatterns, r: AnalysisResult, path: string) {
    !Ignored(path) && !patterns.codeFilePattern(path) &&
    !(!r.relevantBuildChanges && patterns.buildFilePattern(path)) &&
    !r.relevantVariabilityModelChanges && patterns.vmFilePattern(path)
  }

  /** One pass of the loop of `analyze` over one changed artifact. */
  function Step(patterns: PathPatterns, considerAllBlocks: bool, buildVerdict: seq<string> -> bool,
                r: AnalysisResult, a: ChangedArtifact): AnalysisResult
  {
    var path := a.artifactPath;
    if RoutedToCode(patterns, path) then
      if Verdict(Code, a.content, considerAllBlocks) then r.(relevantCodeChanges := r.relevantCodeChanges + [path]) else r
    else if RoutedToBuild(patterns, r, path) then
      r.(relevantBuildChanges := buildVerdict(a.content))
    else if RoutedToModel(patterns, r, path) then
      r.(relevantVariabilityModelChanges := Verdict(VariabilityModel, a.content, false))
    else r
  }

  /** The loop of `analyze` over a sequence of changed artifacts, from result `r`. */
  function Run(patterns: PathPatterns, considerAllBlocks: bool, buildVerdict: seq<string> -> bool,
               r: AnalysisResult, arts: seq<ChangedArtifact>): AnalysisResult
    decreases |arts|
  {
    if arts == [] then r
    else Step(patterns, considerAllBlocks, buildVerdict, Run(patterns, considerAllBlocks, buildVerdict, r, arts[..|arts| - 1]), arts[|arts| - 1])
  }

  /* ------------------------------------------------------------------------------------------ */
  /* The analyzer                                                                               */
  /* ------------------------------------------------------------------------------------------ */

  class DiffAnalyzer {
    const patterns: PathPatterns
    /** The block policy handed to every code diff. */
    const considerAllBlocks: bool
    /** The verdict of the build file classifier, which is not part of this model. */
    const buildVerdict: seq<string> -> bool
    const commit: Commit
    var analysisResult: Option<AnalysisResult>

    /** `DiffAnalyzer(vmFilesRegex, codeFilesRegex, buildFilesRegex, commit)`, with the block
        policy and the build classifier's verdict as further arguments. */
    constructor (vmFilesRegex: string -> bool, codeFilesRegex: string -> bool, buildFilesRegex: string -> bool,
                 commit: Commit, considerAllBlocks: bool, buildVerdict: seq<string> -> bool)
      ensures patterns == PathPatterns(vmFilesRegex, codeFilesRegex, buildFilesRegex)
      ensures this.commit == commit && this.considerAllBlocks == considerAllBlocks && this.buildVerdict == buildVerdict
      ensures analysisResult == None
    {
      patterns := PathPatterns(vmFilesRegex, codeFilesRegex, buildFilesRegex);
      this.commit := commit;
      this.considerAllBlocks := considerAllBlocks;
      this.buildVerdict := buildVerdict;
      analysisResult := None;
    }

    /** `analyze()`: nothing happens for a commit without id; otherwise a fresh result for the
        commit's id is filled artifact by artifact, and the analysis succeeds. */
    method Analyze() returns (analyzedSuccessful: bool)
      modifies this
      ensures analyzedSuccessful <==> commit.id != []
      ensures !analyzedSuccessful ==> analysisResult == old(analysisResult)
      ensures analyzedSuccessful ==>
                analysisResult == Some(Run(patterns, considerAllBlocks, buildVerdict, InitialResult(commit.id), commit.changedArtifacts))
    {
      analyzedSuccessful := false;
      if commit.id != [] {
        var changedArtifactList := commit.changedArtifacts;
        analysisResult := Some(InitialResult(commit.id));
        var k := 0;
        while k < |changedArtifactList|
          invariant k <= |changedArtifactList|
          invariant analysisResult ==
                      Some(Run(patterns, considerAllBlocks, buildVerdict, InitialResult(commit.id), changedArtifactList[..k]))
          decreases |changedArtifactList| - k
        {
          var changedArtifact := changedArtifactList[k];
          AnalyzeArtifact(changedArtifact);
          assert changedArtifactList[..k + 1][..k] == changedArtifactList[..k];
          k := k + 1;
        }
        assert changedArtifactList[..k] == changedArtifactList;
        analyzedSuccessful := true;
      }
    }

    /** The body of the loop of `analyze` for one changed artifact. */
    method AnalyzeArtifact(changedArtifact: ChangedArtifact)
      requires analysisResult.Some?
      modifies this
      ensures analysisResult == Some(Step(patterns, considerAllBlocks, buildVerdict, old(analysisResult).value, changedArtifact))
    {
      var result := analysisResult.value;
      var path := changedArtifact.artifactPath;
      var blacklisted := IsBlacklisted(path);
      if path != [] && !ExcludedPath(path) && !blacklisted {
        if patterns.codeFilePattern(path) {
          var fileDiff := new FileDiff.WithPolicy(Code, changedArtifact.content, considerAllBlocks);
          fileDiff.AnalyzeDiff();
          if fileDiff.GetResult() {
            analysisResult := Some(result.(relevantCodeChanges := result.relevantCodeChanges + [path]));
          }
        } else if !result.relevantBuildChanges && patterns.buildFilePattern(path) {
          analysisResult := Some(result.(relevantBuildChanges := buildVerdict(changedArtifact.content)));
        } else if !result.relevantVariabilityModelChanges && patterns.vmFilePattern(path) {
          var fileDiff := new FileDiff(VariabilityModel, changedArtifact.content);
          fileDiff.AnalyzeDiff();
          analysisResult := Some(result.(relevantVariabilityModelChanges := fileDiff.GetResult()));
        }
      }
    }

    function GetResult(): (r: Option<AnalysisResult>)
      reads this
      ensures r == analysisResult
    {
      analysisResult
    }
  }
}
