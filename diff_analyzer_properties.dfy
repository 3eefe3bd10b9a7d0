/** What one analysis of a commit computes: the commit id is kept, the code list holds exactly the
    relevant code paths in order, each flag is set by the first relevant file of its kind and never
    cleared, and excluded paths change nothing. */
module DiffAnalyzerProperties {
  import opened Strings
  import opened FileDiffs
  import opened DiffAnalyzer

  /* ------------------------------------------------------------------------------------------ */
  /* Path filters                                                                               */
  /* ------------------------------------------------------------------------------------------ */

  /** The blacklist holds one extension: a path is blacklisted exactly when, trimmed, it ends in `.lb`. */
  lemma BlacklistedIsLb(path: string)
    ensures Blacklisted(path) <==> EndsWith(Trim(path), ".lb")
  {
    if EndsWith(Trim(path), ".lb") {
      assert EndsWith(Trim(path), "." + FILE_EXTENSION_BLACKLIST[0]);
    }
  }

  /** Any path with a documentation or script directory segment is excluded. */
  lemma ExcludedDirectory(prefix: string, i: int, suffix: string)
    requires 0 <= i < |EXCLUDED_DIR_NAMES|
    ensures ExcludedPath(prefix + "/" + EXCLUDED_DIR_NAMES[i] + "/" + suffix)
  {
    var d := "/" + EXCLUDED_DIR_NAMES[i] + "/";
    var path := prefix + "/" + EXCLUDED_DIR_NAMES[i] + "/" + suffix;
    assert path == prefix + d + suffix;
    assert path[|prefix|..|prefix| + |d|] == d;
    assert OccursAt(path, d, |prefix|);
  }

  /** Any text file is excluded. */
  lemma TextFileExcluded(prefix: string)
    ensures ExcludedPath(prefix + ".txt")
  {
    assert (prefix + ".txt")[|prefix|..] == ".txt";
  }

  /* ------------------------------------------------------------------------------------------ */
  /* One artifact                                                                               */
  /* ------------------------------------------------------------------------------------------ */

  /** An empty, excluded or blacklisted path leaves the result as it is. */
  lemma IgnoredArtifactChangesNothing(patterns: PathPatterns, considerAllBlocks: bool, buildVerdict: seq<string> -> bool,
                                      r: AnalysisResult, a: ChangedArtifact)
    requires Ignored(a.artifactPath)
    ensures Step(patterns, considerAllBlocks, buildVerdict, r, a) == r
  {
  }

  /** A code path is analysed as code only: both flags stay as they are, and the path is appended
      exactly when its diff is relevant. */
  lemma CodeArtifactTouchesOnlyCodeList(patterns: PathPatterns, considerAllBlocks: bool, buildVerdict: seq<string> -> bool,
                                        r: AnalysisResult, a: ChangedArtifact)
    requires RoutedToCode(patterns, a.artifactPath)
    ensures var s := Step(patterns, considerAllBlocks, buildVerdict, r, a);
      s.commitId == r.commitId &&
      s.relevantBuildChanges == r.relevantBuildChanges &&
      s.relevantVariabilityModelChanges == r.relevantVariabilityModelChanges &&
      s.relevantCodeChanges ==
        r.relevantCodeChanges + (if Verdict(Code, a.content, considerAllBlocks) then [a.artifactPath] else [])
  {
  }

  /** Once a relevant build change is known, a path matching both the build and the model pattern
      is analysed as a variability model file. */
  lemma KnownBuildChangeFallsThroughToModel(patterns: PathPatterns, considerAllBlocks: bool, buildVerdict: seq<string> -> bool,
                                            r: AnalysisResult, a: ChangedArtifact)
    requires !Ignored(a.artifactPath) && !patterns.codeFilePattern(a.artifactPath)
    requires patterns.buildFilePattern(a.artifactPath) && patterns.vmFilePattern(a.artifactPath)
    requires r.relevantBuildChanges && !r.relevantVariabilityModelChanges
    ensures Step(patterns, considerAllBlocks, buildVerdict, r, a) ==
              r.(relevantVariabilityModelChanges := Verdict(VariabilityModel, a.content, false))
  {
  }

  /** Step keeps the commit id, never clears a flag, and only appends to the code list. */
  lemma StepMonotone(patterns: PathPatterns, considerAllBlocks: bool, buildVerdict: seq<string> -> bool,
                     r: AnalysisResult, a: ChangedArtifact)
    ensures var s := Step(patterns, considerAllBlocks, buildVerdict, r, a);
      s.commitId == r.commitId &&
      (r.relevantBuildChanges ==> s.relevantBuildChanges) &&
      (r.relevantVariabilityModelChanges ==> s.relevantVariabilityModelChanges) &&
      s.relevantCodeChanges[..|r.relevantCodeChanges|] == r.relevantCodeChanges
  {
  }

  /* ------------------------------------------------------------------------------------------ */
  /* A whole commit                                                                             */
  /* ------------------------------------------------------------------------------------------ */

  /** The code paths found relevant, in the order of the artifacts. */
  function RelevantCodePaths(patterns: PathPatterns, considerAllBlocks: bool, arts: seq<ChangedArtifact>): (paths: seq<string>)
    ensures |paths| <= |arts|
    decreases |arts|
  {
    if arts == [] then []
    else
      var a := arts[|arts| - 1];
      RelevantCodePaths(patterns, considerAllBlocks, arts[..|arts| - 1]) +
      (if RoutedToCode(patterns, a.artifactPath) && Verdict(Code, a.content, considerAllBlocks) then [a.artifactPath] else [])
  }

  /** A path is in the code list exactly when some artifact with that path is a code file whose
      diff is relevant. */
  lemma {:induction false} RelevantCodePathsIff(patterns: PathPatterns, considerAllBlocks: bool, arts: seq<ChangedArtifact>, p: string)
    ensures p in RelevantCodePaths(patterns, considerAllBlocks, arts) <==>
              exists k :: 0 <= k < |arts| && arts[k].artifactPath == p && RoutedToCode(patterns, p) &&
                          Verdict(Code, arts[k].content, considerAllBlocks)
    decreases |arts|
  {
    if arts != [] {
      var init := arts[..|arts| - 1];
      RelevantCodePathsIff(patterns, considerAllBlocks, init, p);
      forall k | 0 <= k < |init| ensures init[k] == arts[k] { }
    }
  }

  /** Analysing a commit keeps the commit id. */
  lemma {:induction false} RunKeepsCommitId(patterns: PathPatterns, considerAllBlocks: bool, buildVerdict: seq<string> -> bool,
                                            r: AnalysisResult, arts: seq<ChangedArtifact>)
    ensures Run(patterns, considerAllBlocks, buildVerdict, r, arts).commitId == r.commitId
    decreases |arts|
  {
    if arts != [] {
      RunKeepsCommitId(patterns, considerAllBlocks, buildVerdict, r, arts[..|arts| - 1]);
      StepMonotone(patterns, considerAllBlocks, buildVerdict,
                   Run(patterns, considerAllBlocks, buildVerdict, r, arts[..|arts| - 1]), arts[|arts| - 1]);
    }
  }

  /** The code list is the one started with, followed by the relevant code paths in order;
      build and model files never affect it. */
  lemma {:induction false} RunCodeChanges(patterns: PathPatterns, considerAllBlocks: bool, buildVerdict: seq<string> -> bool,
                                          r: AnalysisResult, arts: seq<ChangedArtifact>)
    ensures Run(patterns, considerAllBlocks, buildVerdict, r, arts).relevantCodeChanges ==
              r.relevantCodeChanges + RelevantCodePaths(patterns, considerAllBlocks, arts)
    decreases |arts|
  {
    if arts != [] {
      var init := arts[..|arts| - 1];
      var a := arts[|arts| - 1];
      var prev := Run(patterns, considerAllBlocks, buildVerdict, r, init);
      RunCodeChanges(patterns, considerAllBlocks, buildVerdict, r, init);
      if RoutedToCode(patterns, a.artifactPath) {
        CodeArtifactTouchesOnlyCodeList(patterns, considerAllBlocks, buildVerdict, prev, a);
      }
    }
  }

  /** The build flag is set exactly when it was set already or some artifact is a build file
      (not ignored, not code) whose diff the build classifier finds relevant. */
  lemma {:induction false} RunBuildFlag(patterns: PathPatterns, considerAllBlocks: bool, buildVerdict: seq<string> -> bool,
                                        r: AnalysisResult, arts: seq<ChangedArtifact>)
    ensures Run(patterns, considerAllBlocks, buildVerdict, r, arts).relevantBuildChanges <==>
              r.relevantBuildChanges ||
              exists k :: 0 <= k < |arts| && IsBuildFile(patterns, arts[k].artifactPath) && buildVerdict(arts[k].content)
    decreases |arts|
  {
    if arts != [] {
      var init := arts[..|arts| - 1];
      var a := arts[|arts| - 1];
      RunBuildFlag(patterns, considerAllBlocks, buildVerdict, r, init);
      StepMonotone(patterns, considerAllBlocks, buildVerdict, Run(patterns, considerAllBlocks, buildVerdict, r, init), a);
      forall k | 0 <= k < |init| ensures init[k] == arts[k] { }
    }
  }

  /** The path is not ignored, not code, and matches the build pattern. */
  predicate IsBuildFile(patterns: PathPatterns, path: string) {
    !Ignored(path) && !patterns.codeFilePattern(path) && patterns.buildFilePattern(path)
  }

  /** The path is not ignored, not code, and matches the model pattern. */
  predicate IsModelFile(patterns: PathPatterns, path: string) {
    !Ignored(path) && !patterns.codeFilePattern(path) && patterns.vmFilePattern(path)
  }

  /** The model flag is set exactly when it was set already or some artifact is a model file whose
      diff is relevant and that is not taken as a build file, i.e. if it also matches the build
      pattern, a relevant build change was known by then. */
  lemma {:induction false} RunModelFlag(patterns: PathPatterns, considerAllBlocks: bool, buildVerdict: seq<string> -> bool,
                                        r: AnalysisResult, arts: seq<ChangedArtifact>)
    ensures Run(patterns, considerAllBlocks, buildVerdict, r, arts).relevantVariabilityModelChanges <==>
              r.relevantVariabilityModelChanges ||
              exists k :: 0 <= k < |arts| && IsModelFile(patterns, arts[k].artifactPath) &&
                (patterns.buildFilePattern(arts[k].artifactPath) ==>
                   Run(patterns, considerAllBlocks, buildVerdict, r, arts[..k]).relevantBuildChanges) &&
                Verdict(VariabilityModel, arts[k].content, false)
    decreases |arts|
  {
    if arts != [] {
      var init := arts[..|arts| - 1];
      var a := arts[|arts| - 1];
      RunModelFlag(patterns, considerAllBlocks, buildVerdict, r, init);
      StepMonotone(patterns, considerAllBlocks, buildVerdict, Run(patterns, considerAllBlocks, buildVerdict, r, init), a);
      forall k | 0 <= k < |init| ensures init[k] == arts[k] && init[..k] == arts[..k] { }
      assert arts[..|arts| - 1] == init;
    }
  }

  /** A commit whose artifacts are all ignored leaves the initial result as it is. */
  lemma {:induction false} AllIgnoredKeepsResult(patterns: PathPatterns, considerAllBlocks: bool, buildVerdict: seq<string> -> bool,
                                                 r: AnalysisResult, arts: seq<ChangedArtifact>)
    requires forall k :: 0 <= k < |arts| ==> Ignored(arts[k].artifactPath)
    ensures Run(patterns, considerAllBlocks, buildVerdict, r, arts) == r
    decreases |arts|
  {
    if arts != [] {
      var init := arts[..|arts| - 1];
      forall k | 0 <= k < |init| ensures Ignored(init[k].artifactPath) {
        assert init[k] == arts[k];
      }
      AllIgnoredKeepsResult(patterns, considerAllBlocks, buildVerdict, r, init);
      IgnoredArtifactChangesNothing(patterns, considerAllBlocks, buildVerdict, r, arts[|arts| - 1]);
    }
  }
}
