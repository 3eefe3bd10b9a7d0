# Dead code change analysis: diff classification

This project models, in Dafny, the classification engine of the dead code change analyzer of
ComAnI (the Commit Analysis Infrastructure). For each commit, the analyzer decides which changes
may affect variability. The verdict is recorded in an analysis result with three parts:

- the list of C source files whose diff touches a preprocessor block (only blocks that refer to a
  `CONFIG_` option, unless every block counts);
- whether a build file changed relevantly (decided by a build classifier that is not part of
  this model);
- whether a Kconfig variability model file changed relevantly (a configuration definition, a
  `source` include, or a `depends on` of a configuration element, outside help texts).

The modules follow the Java classes:

| module | class |
|---|---|
| `Strings`, `DiffMarkers` | the `String` operations the classifiers use (`trim`, `contains`, `split`, `startsWith`/`endsWith`) and the `+`/`-` line markers of `FileDiff` |
| `FileDiffs` | `FileDiff`: the file type, the line buffer, the block policy, the verdict, and the loop of `analyzeDiff` |
| `CodePatterns`, `CodeFileDiff`, `CodeFileDiffProperties` | `CodeFileDiff`: the preprocessor regular expressions, normalisation, the comment test, the nested block search and the condition backtracking |
| `VariabilityModelFileDiff`, `VariabilityModelProperties` | `VariabilityModelFileDiff`: the Kconfig patterns, normalisation, indentation, the help test and the `depends on` search |
| `DiffAnalyzer`, `DiffAnalyzerProperties` | `DiffAnalyzer`: the path filters, the routing by path, and the analysis of a whole commit |

Every loop of the source is a method with its invariants. Each method is proved equal to a
recursive specification function of the same scan. Lemmas then state what those functions mean:
- an if-and-only-if with an existential witness;
- the direction of each search;
- small concrete diffs that show each case.

Every Java regular expression is written as a predicate with the whole-string semantics of
`Pattern.matches`.

The model follows the code as written, and it records these behaviours of the code:

- `isRelevantChange` of `CodeFileDiff` applies the block patterns to the stored first line of the
  statement, marker included. The `#`-anchored patterns therefore never match an added or deleted
  line. For example, a diff holding only `+#if CONFIG_FOO` is not relevant under either policy
  (`AddedConfigIfIsNotRelevant`). Only `CODE_IF_END_PATTERN`, which begins with `.*`, and
  continued lines can make such a line relevant (`StoredStartLine`).
- In the backward mode of `containsConfigBlocks`, the `#endif` test reads the fixed start line
  instead of the scanned line. Every step only deepens the nesting, and the search never finds
  anything (`BackwardScanFindsNothing`). In the forward mode `counterpartFound` is never set, so
  the search runs to the end of the diff (`ForwardScanIff`).
- As a result of the first point, the two policies are incomparable. A statement whose `#if`
  continues onto a line with a `CONFIG_` option is relevant only under the configuration policy
  (`ContinuedConfigConditionIsRelevant`).
- The do-while of `backtrackPreprocessorCondition` may read the block end line itself, when the
  opener directly above it ends in a backslash. A `CONFIG_` option on that block end line then
  makes the condition count as variability related (`ContinuedOpenerReadsBlockEnd`).
- `normalize` of `VariabilityModelFileDiff` ignores its position argument, so the model drops it.

## Model

| member | source | states |
|---|---|---|
| DiffMarkers.StripMarker | src/net/ssehub/comani/analysis/deadcodechange/diff/CodeFileDiff.java:166-175 | an added or deleted line loses exactly its first character; any other line is kept as it is |
| Strings.Split | src/net/ssehub/comani/analysis/deadcodechange/diff/VariabilityModelFileDiff.java:98-103 | `String.split` on a literal: piece 0 is the text before the first delimiter, piece 1 the text between the first and second, and trailing empty pieces are dropped |
| Strings.BlankIsTrimEmpty | src/net/ssehub/comani/analysis/deadcodechange/diff/FileDiff.java:120-123 | a line is blank exactly when `trim()` leaves it empty |
| Strings.ContinuationIsTrimmedSuffix | src/net/ssehub/comani/analysis/deadcodechange/diff/CodeFileDiff.java:265 | the continuation test is `trim().endsWith("\\")` |
| CodePatterns.VarIfdefIsVarIf | src/net/ssehub/comani/analysis/deadcodechange/diff/CodeFileDiff.java:80-112 | every line CODE_VAR_IFDEF_PATTERN accepts is accepted by CODE_VAR_IF_PATTERN and CODE_IF_PATTERN too |
| CodePatterns.VarPatternWidens | src/net/ssehub/comani/analysis/deadcodechange/diff/CodeFileDiff.java:65 | a CODE_VAR_PATTERN match in a suffix is a match in every longer suffix |
| CodePatterns.AnchoredPatternsNeedHash | src/net/ssehub/comani/analysis/deadcodechange/diff/CodeFileDiff.java:72-143 | a line not beginning with `#` matches none of the `#`-anchored patterns; among the openers, only `#else` can match it |
| CodeFileDiff.StripCommentsRemovesComments | src/net/ssehub/comani/analysis/deadcodechange/diff/CodeFileDiff.java:176-219 | the split-based comment removal keeps the text before `//`; before `/*`; after `*/` up to a second `*/`; or the text before `/*`, a space and the text after `*/` |
| CodeFileDiff.Normalize | src/net/ssehub/comani/analysis/deadcodechange/diff/CodeFileDiff.java:164-226 | the result is the stored line at `p` with its marker and comment text removed; a line inside a multi-line comment that still holds text becomes "" |
| CodeFileDiff.IsPartOfComment | src/net/ssehub/comani/analysis/deadcodechange/diff/CodeFileDiff.java:454-478 | the loop computes the backward comment scan |
| CodeFileDiffProperties.InCommentIff | src/net/ssehub/comani/analysis/deadcodechange/diff/CodeFileDiff.java:454-478 | a line is inside a comment exactly when the nearest earlier line with a comment marker opens a comment without closing it |
| CodeFileDiffProperties.CommentScanIff | src/net/ssehub/comani/analysis/deadcodechange/diff/CodeFileDiff.java:459-476 | the backward scan from `c` succeeds exactly when some line at or before `c` opens a comment and no line after it holds a marker |
| CodeFileDiffProperties.CommentedLineSilenced | src/net/ssehub/comani/analysis/deadcodechange/diff/CodeFileDiff.java:221-223 | a line inside a multi-line comment normalises to blank text and is never relevant, under either policy |
| CodeFileDiff.IndexOfContinuationStart | src/net/ssehub/comani/analysis/deadcodechange/diff/CodeFileDiff.java:262-270 | the index returned starts the statement: every line from it up to `p` (exclusive) ends in a backslash, and the line before it does not |
| CodeFileDiff.ContinuationStart | src/net/ssehub/comani/analysis/deadcodechange/diff/CodeFileDiff.java:262-270 | the start is at most `p`, every line from it up to `p` continues, and the line before it does not |
| CodeFileDiff.IsRelevantChange | src/net/ssehub/comani/analysis/deadcodechange/diff/CodeFileDiff.java:232-252 | outside a comment, the stored first line of the statement is a block line (all-blocks policy) or a configuration block change (configuration policy) |
| CodeFileDiff.CheckForConfigBlocks | src/net/ssehub/comani/analysis/deadcodechange/diff/CodeFileDiff.java:307-323 | the line is a configuration block, or it is a block whose nested search, backward for `#endif`, finds a configuration block |
| CodeFileDiff.ContainsConfigBlocks | src/net/ssehub/comani/analysis/deadcodechange/diff/CodeFileDiff.java:338-407 | the result is the backward or the forward nested search, as `backwardSearch` says |
| CodeFileDiff.SearchBackward | src/net/ssehub/comani/analysis/deadcodechange/diff/CodeFileDiff.java:343-373 | the backward loop computes the backward scan specification |
| CodeFileDiff.SearchForward | src/net/ssehub/comani/analysis/deadcodechange/diff/CodeFileDiff.java:374-405 | the forward loop computes the forward scan specification |
| CodeFileDiffProperties.BackwardScanFindsNothing | src/net/ssehub/comani/analysis/deadcodechange/diff/CodeFileDiff.java:346-373 | for a start line matching CODE_END_IF_PATTERN the backward search never finds a configuration block |
| CodeFileDiffProperties.ForwardScanIff | src/net/ssehub/comani/analysis/deadcodechange/diff/CodeFileDiff.java:377-404 | for any other start line the forward search holds exactly when some later line is a `CONFIG_` opener or `#else`, or continues a stored opener, whatever the nesting |
| CodeFileDiffProperties.ConfigBlockChangeByDirection | src/net/ssehub/comani/analysis/deadcodechange/diff/CodeFileDiff.java:307-323 | on an `#endif` start line `checkForConfigBlocks` is `isConfigBlock`; on any other line it also accepts a block with a forward hit |
| CodeFileDiff.IsConfigBlock | src/net/ssehub/comani/analysis/deadcodechange/diff/CodeFileDiff.java:418-444 | the line is an `#if`/`#ifdef` on a `CONFIG_` option, or it continues onto lines that reach a `CONFIG_` reference first, or it is a block end whose condition refers to one |
| CodeFileDiff.BacktrackPreprocessorCondition | src/net/ssehub/comani/analysis/deadcodechange/diff/CodeFileDiff.java:488-548 | the backward loop, with its nesting of `#endif` lines not of the inverted change type, computes the backtracking specification |
| CodeFileDiff.ConditionContinues | src/net/ssehub/comani/analysis/deadcodechange/diff/CodeFileDiff.java:525-533 | the do-while finds a `CONFIG_` reference among the continued condition lines up to the block end |
| CodeFileDiffProperties.BacktrackNeedsOpener | src/net/ssehub/comani/analysis/deadcodechange/diff/CodeFileDiff.java:510-546 | the backtracking succeeds only after a stored line, at or before its start, that contains `#if` and is no block end |
| CodeFileDiffProperties.ConditionNeedsOpener | src/net/ssehub/comani/analysis/deadcodechange/diff/CodeFileDiff.java:488-548 | a block end is judged variability related only if some earlier stored line contains `#if` and is no block end |
| CodeFileDiffProperties.ContinuationHasConfigIff | src/net/ssehub/comani/analysis/deadcodechange/diff/CodeFileDiff.java:424-437 | the continuation loop of `isConfigBlock` from line `k` succeeds exactly when some normalised line `j` at or after `k` matches CODE_VAR_PATTERN and every normalised line from `k` up to `j` ends in a backslash |
| CodeFileDiffProperties.ConditionContinuationIff | src/net/ssehub/comani/analysis/deadcodechange/diff/CodeFileDiff.java:525-533 | the do-while from line `b` for the block end `e` succeeds exactly when some normalised line `j` it reads matches CODE_VAR_PATTERN: `j` is `b` itself (read even when `b` is the block end) or lies before `e`, and every normalised line from `b` up to `j` ends in a backslash |
| CodeFileDiffProperties.BacktrackSkipsPlainLines | src/net/ssehub/comani/analysis/deadcodechange/diff/CodeFileDiff.java:510-545 | with no open nesting, lines that contain neither `#if` nor `#endif` leave the backtracking unchanged |
| CodeFileDiffProperties.NearestOpenerDecides | src/net/ssehub/comani/analysis/deadcodechange/diff/CodeFileDiff.java:510-534 | when the nearest stored line above a block end that mentions `#if` or `#endif` is an opener, the condition is variability related exactly when that opener matches CODE_VAR_IF_START_PATTERN, or it ends in a backslash and the do-while after it finds a `CONFIG_` reference |
| CodeFileDiffProperties.ContinuedOpenerReadsBlockEnd | src/net/ssehub/comani/analysis/deadcodechange/diff/CodeFileDiff.java:519-533 | an unchanged `#if defined(X) \` directly above a deleted `#endif (CONFIG_A)`: the opener has no `CONFIG_` option, yet the do-while reads the block end line and the condition counts as variability related |
| CodeFileDiff.InvertChangeType | src/net/ssehub/comani/analysis/deadcodechange/diff/CodeFileDiff.java:556-562 | the result is a marker; a marker is turned into the other one, and anything else gives `+` |
| CodeFileDiffProperties.ConfigRelevantIsBlockOrContinued | src/net/ssehub/comani/analysis/deadcodechange/diff/CodeFileDiff.java:240-249 | under the configuration policy a relevant line starts a statement whose first line is a block line or a continued line |
| CodeFileDiffProperties.StoredStartLine | src/net/ssehub/comani/analysis/deadcodechange/diff/CodeFileDiff.java:241-248 | when the first line of the statement does not begin with `#`, the all-blocks policy accepts it exactly when it is outside a comment and matches CODE_IF_END_PATTERN; the configuration policy needs a block end or a continued line |
| CodeFileDiffProperties.AddedConfigIfIsNotRelevant | src/net/ssehub/comani/analysis/deadcodechange/diff/CodeFileDiff.java:241-248 | `#if CONFIG_FOO` matches CODE_VAR_IF_PATTERN, yet the diff `+#if CONFIG_FOO` is relevant under neither policy |
| CodeFileDiffProperties.ContinuedConfigConditionIsRelevant | src/net/ssehub/comani/analysis/deadcodechange/diff/CodeFileDiff.java:424-437 | an added `#if` continued onto an added `CONFIG_Y` line is relevant at both lines under the configuration policy and at neither under the all-blocks policy |
| CodeFileDiffProperties.DeletedEndifOfConfigBlockIsRelevant | src/net/ssehub/comani/analysis/deadcodechange/diff/CodeFileDiff.java:438-439 | a deleted `#endif` that closes an unchanged `#if CONFIG_A` is relevant under both policies |
| VariabilityModelFileDiff.NormalizeIsFirstSplitPiece | src/net/ssehub/comani/analysis/deadcodechange/diff/VariabilityModelFileDiff.java:85-106 | the normalised line is the first piece of splitting the unmarked line at `#`, or "" when there is none |
| VariabilityModelFileDiff.NormalizeKeepsTextBeforeComment | src/net/ssehub/comani/analysis/deadcodechange/diff/VariabilityModelFileDiff.java:85-106 | the normalised line is a prefix of the unmarked line with no `#` left; a context line without `#` is kept as it is |
| VariabilityModelProperties.NormalizeWithoutComment | src/net/ssehub/comani/analysis/deadcodechange/diff/VariabilityModelFileDiff.java:94-103 | a line without `#` normalises to the line without its marker |
| VariabilityModelFileDiff.GetIndentation | src/net/ssehub/comani/analysis/deadcodechange/diff/VariabilityModelFileDiff.java:205-211 | the loop counts the leading whitespace |
| VariabilityModelFileDiff.IndentationIff | src/net/ssehub/comani/analysis/deadcodechange/diff/VariabilityModelFileDiff.java:205-211 | the indentation is the one count whose characters are all whitespace and that ends at the end of the line or at a non-whitespace character |
| VariabilityModelFileDiff.IsPartOfHelp | src/net/ssehub/comani/analysis/deadcodechange/diff/VariabilityModelFileDiff.java:167-196 | the do-while computes the help scan specification |
| VariabilityModelProperties.HelpParentScanIff | src/net/ssehub/comani/analysis/deadcodechange/diff/VariabilityModelFileDiff.java:175-192 | the backward scan succeeds exactly when the nearest earlier non-empty, less indented line is a `help`, `--help--` or `comment` header |
| VariabilityModelProperties.PartOfHelpIff | src/net/ssehub/comani/analysis/deadcodechange/diff/VariabilityModelFileDiff.java:167-196 | the first line and unindented lines are never help; any other line is help exactly when its nearest parent is a help header |
| VariabilityModelProperties.LineBelowHelpHeaderIsHelp | src/net/ssehub/comani/analysis/deadcodechange/diff/VariabilityModelFileDiff.java:119 | a line indented below a help header right above it is help and never relevant |
| VariabilityModelProperties.BelowOtherParentIsNoHelp | src/net/ssehub/comani/analysis/deadcodechange/diff/VariabilityModelFileDiff.java:177-189 | a line right below a less indented line that is no help header is not help |
| VariabilityModelFileDiff.IsRelevantChange | src/net/ssehub/comani/analysis/deadcodechange/diff/VariabilityModelFileDiff.java:112-158 | the method computes the relevance specification: outside help, a definition or include line, or a `depends on` line whose backward search succeeds |
| VariabilityModelFileDiff.SearchModelElement | src/net/ssehub/comani/analysis/deadcodechange/diff/VariabilityModelFileDiff.java:132-154 | the backward loop computes the `depends on` search specification |
| VariabilityModelProperties.DependsScanStep | src/net/ssehub/comani/analysis/deadcodechange/diff/VariabilityModelFileDiff.java:135-153 | one step of the search: it accepts a model element, stops at a deciding line, and otherwise goes on |
| VariabilityModelProperties.StepAt | src/net/ssehub/comani/analysis/deadcodechange/diff/VariabilityModelFileDiff.java:137-152 | a line is accepted exactly when it is a model element, and passed by exactly when it decides nothing |
| VariabilityModelProperties.DependsScanIff | src/net/ssehub/comani/analysis/deadcodechange/diff/VariabilityModelFileDiff.java:132-154 | the search from `hi - 1` succeeds exactly when the first line that decides is a model element |
| VariabilityModelProperties.RelevantIff | src/net/ssehub/comani/analysis/deadcodechange/diff/VariabilityModelFileDiff.java:112-158 | relevance stated with the search's witness; on the first line only definitions and includes are relevant |
| VariabilityModelProperties.DependsOnIsNoDefinition | src/net/ssehub/comani/analysis/deadcodechange/diff/VariabilityModelFileDiff.java:120-125 | a `depends on` line is neither a definition nor an include, so the order of the tests does not matter |
| VariabilityModelProperties.CommentIsNoDefinition | src/net/ssehub/comani/analysis/deadcodechange/diff/VariabilityModelFileDiff.java:137-143 | a `comment "` line is no definition, so the search stops at it before asking whether it is relevant |
| VariabilityModelProperties.DefinitionIsModelElement | src/net/ssehub/comani/analysis/deadcodechange/diff/VariabilityModelFileDiff.java:143-149 | an unindented definition line is accepted by the search |
| VariabilityModelProperties.ElementAboveIsFound | src/net/ssehub/comani/analysis/deadcodechange/diff/VariabilityModelFileDiff.java:143-149 | the search accepts a model element at its first line |
| VariabilityModelProperties.CommentAboveStopsSearch | src/net/ssehub/comani/analysis/deadcodechange/diff/VariabilityModelFileDiff.java:137-142 | the search stops at a `comment "` line without finding anything |
| VariabilityModelProperties.DependsOnRelevance | src/net/ssehub/comani/analysis/deadcodechange/diff/VariabilityModelFileDiff.java:125-155 | a `depends on` line outside help is relevant exactly when the search from the line above succeeds |
| VariabilityModelProperties.DependsOnBelowDefinitionIsRelevant | src/net/ssehub/comani/analysis/deadcodechange/diff/VariabilityModelFileDiff.java:125-155 | a `depends on` line right below an unindented definition line is relevant |
| VariabilityModelProperties.DependsOnBelowCommentIsNotRelevant | src/net/ssehub/comani/analysis/deadcodechange/diff/VariabilityModelFileDiff.java:125-155 | an unindented `depends on` line right below a `comment "` line is not relevant |
| FileDiffs.Outcome | src/net/ssehub/comani/analysis/deadcodechange/diff/FileDiff.java:116-127 | a line is acted on exactly when it is marked and not blank after the marker; it is classified exactly when it also does not normalise to blanks; and it is relevant exactly when the classifier says so |
| FileDiffs.Normalize | src/net/ssehub/comani/analysis/deadcodechange/diff/FileDiff.java:141 | the overridden `normalize` of the diff's type |
| FileDiffs.IsRelevantChange | src/net/ssehub/comani/analysis/deadcodechange/diff/FileDiff.java:152 | the overridden `isRelevantChange` of the diff's type |
| FileDiffs.AnalyzeLine | src/net/ssehub/comani/analysis/deadcodechange/diff/FileDiff.java:116-127 | the loop body's outcome for a line is that line's outcome |
| FileDiffs.ScanLines | src/net/ssehub/comani/analysis/deadcodechange/diff/FileDiff.java:111-130 | the loop's verdict is the scan verdict, and the lines passed to `normalize` and to `isRelevantChange` are the traces of the outcome sequence |
| FileDiffs.FileDiff.constructor | src/net/ssehub/comani/analysis/deadcodechange/diff/FileDiff.java:80-84 | stores the type and the lines; the block policy and the verdict start false |
| FileDiffs.FileDiff.WithPolicy | src/net/ssehub/comani/analysis/deadcodechange/diff/FileDiff.java:101-106 | stores the type, the lines and the block policy; the verdict starts false |
| FileDiffs.FileDiff.AnalyzeDiff | src/net/ssehub/comani/analysis/deadcodechange/diff/FileDiff.java:111-130 | type, lines and policy are unchanged; the verdict is kept when already set and is otherwise the diff's verdict, with the call traces recorded |
| FileDiffs.FileDiff.GetFileType | src/net/ssehub/comani/analysis/deadcodechange/diff/FileDiff.java:159-161 | returns the file type |
| FileDiffs.FileDiff.GetResult | src/net/ssehub/comani/analysis/deadcodechange/diff/FileDiff.java:168-170 | returns the verdict |
| FileDiffs.FileDiff.GetDiffText | src/net/ssehub/comani/analysis/deadcodechange/diff/FileDiff.java:177-179 | returns the lines |
| FileDiffProperties.ScanFromIff | src/net/ssehub/comani/analysis/deadcodechange/diff/FileDiff.java:115 | the loop started at `i` finds a verdict exactly when some outcome from `i` on is relevant |
| FileDiffProperties.NormalizeCallsIff | src/net/ssehub/comani/analysis/deadcodechange/diff/FileDiff.java:115-122 | a line is normalised exactly when it is marked and no earlier line was relevant |
| FileDiffProperties.ClassifyCallsIff | src/net/ssehub/comani/analysis/deadcodechange/diff/FileDiff.java:115-124 | a line is classified exactly when it reaches the classifier and no earlier line was relevant |
| FileDiffProperties.NormalizeCallsIncrease | src/net/ssehub/comani/analysis/deadcodechange/diff/FileDiff.java:115-128 | lines are passed to `normalize` in strictly increasing order |
| FileDiffProperties.ClassifyCallsIncrease | src/net/ssehub/comani/analysis/deadcodechange/diff/FileDiff.java:115-128 | lines are passed to `isRelevantChange` in strictly increasing order |
| FileDiffProperties.LastClassifiedDecides | src/net/ssehub/comani/analysis/deadcodechange/diff/FileDiff.java:115-124 | the loop finds a verdict exactly when the last line classified is relevant |
| FileDiffProperties.OutcomesMean | src/net/ssehub/comani/analysis/deadcodechange/diff/FileDiff.java:116-127 | the outcome sequence, read line by line |
| FileDiffProperties.VerdictIff | src/net/ssehub/comani/analysis/deadcodechange/diff/FileDiff.java:111-130 | the verdict holds exactly when some line is marked, not blank, does not normalise to blanks, and is relevant |
| FileDiffProperties.NoChangedLineNoVerdict | src/net/ssehub/comani/analysis/deadcodechange/diff/FileDiff.java:117 | a diff without added or deleted lines is never relevant |
| FileDiffProperties.NormalizedLinesAre | src/net/ssehub/comani/analysis/deadcodechange/diff/FileDiff.java:117-122 | the lines normalised are the marked lines up to the first relevant one |
| FileDiffProperties.ClassifiedLinesAre | src/net/ssehub/comani/analysis/deadcodechange/diff/FileDiff.java:120-124 | the lines classified are the lines that reach the classifier, up to the first relevant one |
| DiffAnalyzer.IsBlacklisted | src/net/ssehub/comani/analysis/deadcodechange/diff/DiffAnalyzer.java:168-184 | the loop finds a blacklisted extension exactly when the trimmed path ends in one |
| DiffAnalyzerProperties.BlacklistedIsLb | src/net/ssehub/comani/analysis/deadcodechange/diff/DiffAnalyzer.java:38 | a path is blacklisted exactly when, trimmed, it ends in `.lb` |
| DiffAnalyzerProperties.ExcludedDirectory | src/net/ssehub/comani/analysis/deadcodechange/diff/DiffAnalyzer.java:45-62 | any path with a documentation or script directory segment is excluded |
| DiffAnalyzerProperties.TextFileExcluded | src/net/ssehub/comani/analysis/deadcodechange/diff/DiffAnalyzer.java:61-62 | any `.txt` path is excluded |
| DiffAnalyzer.DiffAnalyzer.constructor | src/net/ssehub/comani/analysis/deadcodechange/diff/DiffAnalyzer.java:99-104 | stores the three path patterns and the commit; there is no result yet |
| DiffAnalyzer.DiffAnalyzer.Analyze | src/net/ssehub/comani/analysis/deadcodechange/diff/DiffAnalyzer.java:112-148 | succeeds exactly when the commit has an id; the result is then the run over all artifacts from a fresh result with that id, and is otherwise unchanged |
| DiffAnalyzer.DiffAnalyzer.AnalyzeArtifact | src/net/ssehub/comani/analysis/deadcodechange/diff/DiffAnalyzer.java:119-143 | the result after one artifact is one step of the routing from the result before |
| DiffAnalyzer.DiffAnalyzer.GetResult | src/net/ssehub/comani/analysis/deadcodechange/diff/DiffAnalyzer.java:155-157 | returns the result, if any |
| DiffAnalyzerProperties.IgnoredArtifactChangesNothing | src/net/ssehub/comani/analysis/deadcodechange/diff/DiffAnalyzer.java:120-122 | an empty, excluded or blacklisted path leaves the result as it is |
| DiffAnalyzerProperties.CodeArtifactTouchesOnlyCodeList | src/net/ssehub/comani/analysis/deadcodechange/diff/DiffAnalyzer.java:123-129 | a code path leaves both flags as they are, and its path is appended exactly when its diff is relevant |
| DiffAnalyzerProperties.KnownBuildChangeFallsThroughToModel | src/net/ssehub/comani/analysis/deadcodechange/diff/DiffAnalyzer.java:130-141 | once a relevant build change is known, a path matching both the build and the model pattern is analysed as a model file |
| DiffAnalyzerProperties.StepMonotone | src/net/ssehub/comani/analysis/deadcodechange/diff/DiffAnalyzer.java:119-143 | one artifact keeps the commit id, never clears a flag, and only appends to the code list |
| DiffAnalyzerProperties.RelevantCodePaths | src/net/ssehub/comani/analysis/deadcodechange/diff/DiffAnalyzer.java:123-129 | there are no more relevant code paths than artifacts |
| DiffAnalyzerProperties.RelevantCodePathsIff | src/net/ssehub/comani/analysis/deadcodechange/diff/DiffAnalyzer.java:119-129 | a path is in the code list exactly when some artifact with that path is a code file whose diff is relevant |
| DiffAnalyzerProperties.RunKeepsCommitId | src/net/ssehub/comani/analysis/deadcodechange/diff/DiffAnalyzer.java:116-119 | a whole commit keeps the commit id |
| DiffAnalyzerProperties.RunCodeChanges | src/net/ssehub/comani/analysis/deadcodechange/diff/DiffAnalyzer.java:119-129 | the code list is the relevant code paths in artifact order; build and model files never affect it |
| DiffAnalyzerProperties.RunBuildFlag | src/net/ssehub/comani/analysis/deadcodechange/diff/DiffAnalyzer.java:130-135 | the build flag is set exactly when some artifact is a build file whose diff the build classifier finds relevant |
| DiffAnalyzerProperties.RunModelFlag | src/net/ssehub/comani/analysis/deadcodechange/diff/DiffAnalyzer.java:130-141 | the model flag is set exactly when some artifact is a model file with a relevant diff that was not taken as a build file at that point |
| DiffAnalyzerProperties.AllIgnoredKeepsResult | src/net/ssehub/comani/analysis/deadcodechange/diff/DiffAnalyzer.java:119-122 | a commit whose paths are all ignored leaves the fresh result as it is |

## Left out

- The logger calls of the classifiers are not modelled. They have no effect on any verdict.
- `BuildFileDiff` is not part of this model. Its verdict enters `DiffAnalyzer.DiffAnalyzer` as the function parameter `buildVerdict`. `FileDiffs.FileDiff.AnalyzeDiff` accepts only the code and variability model types, whose classifiers are modelled.
- The user's path regular expressions (`vmFilesRegex`, `codeFilesRegex`, `buildFilesRegex`) are modelled as arbitrary predicates on paths. The fixed exclusion pattern is written out.
- In every pattern, `.` is taken to match every character. Java's `.` excludes line terminators, which a single diff line does not hold in practice.
- `\s`, `Character.isWhitespace` and `trim` are modelled on ASCII only. Unicode whitespace beyond U+0020 is not modelled.
- In the source, the constructor of `FileDiff` runs the analysis through methods that the subclasses override. Here, a `FileDiff` is constructed first and evaluated by `AnalyzeDiff` afterwards. `normalize` and `isRelevantChange` dispatch on the file type instead of on a subclass.
- `DiffAnalyzer.java:126` calls a one-argument `CodeFileDiff` constructor, which the class does not declare. The model passes the block policy as a constructor argument of `DiffAnalyzer.DiffAnalyzer`.
- `Commit`, `ChangedArtifact` and `AnalysisResult` are not part of this model. They are modelled as datatypes holding the fields the analyzer reads and writes. A fresh `AnalysisResult` is taken to have an empty code list and both flags false.
- A result that is still `null` is modelled as `None`.
- Java arrays and lists of diff lines are modelled as sequences. The classifiers never change them.
- `DeadCodeChangeAnalyzer`, which drives `DiffAnalyzer` over many commits and reports the results, is not part of this model.
- The lines that a `FileDiff` passes to `normalize` and to `isRelevantChange` are recorded in ghost fields, which the source does not have. They let the order and the extent of the calls be stated.
