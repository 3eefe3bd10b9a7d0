/** The Kconfig classifier: whether a changed line of a variability model file touches a
    configuration definition, a `source` include or a `depends on` of a configuration element,
    outside help texts.

    As in the code classifier, `lines` is the diff's line buffer and every member takes it as a
    parameter; each loop is a method proved equal to a recursive specification function. */
module VariabilityModelFileDiff {
  import opened Strings
  import opened DiffMarkers

  /** Starts a comment in a model file. */
  const MODEL_COMMENT_MARKER: string := "#"

  /** The keywords of MODEL_CONFIG_DEF_PATTERN, in the order of the alternation. */
  const MODEL_CONFIG_KEYWORDS: seq<string> :=
    ["config", "menuconfig", "choice", "endchoice", "menu", "endmenu",
     "if", "endif", "bool", "tristate", "string", "hex", "int", "default",
     "def_bool", "def_tristate", "prompt", "select", "visible if", "range"]

  /* ------------------------------------------------------------------------------------------ */
  /* Patterns                                                                                   */
  /* ------------------------------------------------------------------------------------------ */

  /** MODEL_CONFIG_COMMENT_PATTERN, `^\s*comment\s+\".*`: leading `\s`, `comment`, at least one
      `\s` and a double quote. */
  predicate ConfigCommentPattern(s: string) {
    var k := SkipSpaces(s, 0);
    StartsWith(s[k..], "comment") &&
    var m := SkipSpaces(s, k + 7);
    k + 7 < m < |s| && s[m] == '"'
  }

  /** Keyword `kw` at index `k`, followed by the end of `s` or by `\s`. */
  predicate KeywordAt(s: string, k: nat, kw: string)
    requires k <= |s|
  {
    StartsWith(s[k..], kw) && (k + |kw| == |s| || IsRegexSpace(s[k + |kw|]))
  }

  /** MODEL_CONFIG_DEF_PATTERN, `^\s*(config|...|range)(\s+.*)?`: after leading `\s`, one of the
      keywords, alone or followed by `\s` and anything. */
  predicate ConfigDefPattern(s: string) {
    var k := SkipSpaces(s, 0);
    exists kw :: kw in MODEL_CONFIG_KEYWORDS && KeywordAt(s, k, kw)
  }

  /** MODEL_FILE_INCLUDE_PATTERN, `^\s*source\s+((\".*\".*)|(.*\/.*))`: after `source` and at least
      one `\s`, either a quoted text (the first non-`\s` character is a double quote with another
      one after it) or anything containing a slash. */
  predicate FileIncludePattern(s: string) {
    var k := SkipSpaces(s, 0);
    StartsWith(s[k..], "source") && k + 6 < |s| && IsRegexSpace(s[k + 6]) &&
    var j := SkipSpaces(s, k + 6);
    (j < |s| && s[j] == '"' && Contains(s[j + 1..], "\"")) || Contains(s[k + 7..], "/")
  }

  /** MODEL_DEPENDS_ON_PATTERN, `^\s*depends on\s+.*`. */
  predicate DependsOnPattern(s: string) {
    var k := SkipSpaces(s, 0);
    StartsWith(s[k..], "depends on") && k + 10 < |s| && IsRegexSpace(s[k + 10])
  }

  /** The text of a help parent line that makes the lines below it help: it starts with `help`,
      `--help--` or `comment`. */
  predicate IsHelpHeader(t: string) {
    StartsWith(t, "help") || StartsWith(t, "--help--") || StartsWith(t, "comment")
  }

  /* ------------------------------------------------------------------------------------------ */
  /* Normalisation and indentation                                                              */
  /* ------------------------------------------------------------------------------------------ */

  /** `normalize(line, _)`: one leading marker removed, then the text before the first `#`. The
      position argument of the source is not used by this classifier and is dropped. */
  function Normalize(diffLine: string): string {
    Before(StripMarker(diffLine), MODEL_COMMENT_MARKER)
  }

  /** The source takes the first piece of splitting at `#`, or "" when there is none; that is the
      text `Normalize` keeps. */
  lemma NormalizeIsFirstSplitPiece(diffLine: string)
    ensures var splittedNormalizedDiffLine := Split(StripMarker(diffLine), MODEL_COMMENT_MARKER);
      Normalize(diffLine) ==
      (if |splittedNormalizedDiffLine| > 0 then splittedNormalizedDiffLine[0] else "")
  {
  }

  /** Normalisation keeps a prefix of the line without its marker, with no `#` left. A line with
      neither a marker nor a `#` is kept as it is. */
  lemma NormalizeKeepsTextBeforeComment(diffLine: string)
    ensures StartsWith(StripMarker(diffLine), Normalize(diffLine))
    ensures !Contains(Normalize(diffLine), MODEL_COMMENT_MARKER)
    ensures !IsChanged(diffLine) && !Contains(diffLine, MODEL_COMMENT_MARKER) ==> Normalize(diffLine) == diffLine
  {
    BeforeHasNoOccurrence(StripMarker(diffLine), MODEL_COMMENT_MARKER);
    IndexOfFirst(StripMarker(diffLine), MODEL_COMMENT_MARKER);
  }

  /** Every line of the buffer normalised, the way the backward scans read them. This is the
      Kconfig counterpart of `CodeFileDiff.NormalizedLines`: the shape is the same, but each line
      goes through this classifier's `Normalize`, which looks at that line alone (a `#` comment
      ends with its line), where the code classifier's normaliser also needs the block comments
      opened on earlier lines. */
  function NormalizedLines(lines: seq<string>): (norm: seq<string>)
    ensures |norm| == |lines|
  {
    NormalizedPrefix(lines, |lines|)
  }

  /** The first `n` lines normalised with `Normalize`; the Kconfig counterpart of
      `CodeFileDiff.NormalizedPrefix`. */
  function NormalizedPrefix(lines: seq<string>, n: nat): (norm: seq<string>)
    requires n <= |lines|
    ensures |norm| == n
  {
    if n == 0 then [] else NormalizedPrefix(lines, n - 1) + [Normalize(lines[n - 1])]
  }

  /** Line `k` of the normalised prefix is line `k` passed through `Normalize` (the Kconfig
      counterpart of `CodeFileDiff.NormalizedPrefixAt`). */
  lemma {:induction false} NormalizedPrefixAt(lines: seq<string>, n: nat, k: nat)
    requires k < n <= |lines|
    ensures NormalizedPrefix(lines, n)[k] == Normalize(lines[k])
  {
    var prev := NormalizedPrefix(lines, n - 1);
    assert NormalizedPrefix(lines, n) == prev + [Normalize(lines[n - 1])];
    if k < n - 1 {
      assert NormalizedPrefix(lines, n)[k] == prev[k];
      NormalizedPrefixAt(lines, n - 1, k);
    }
  }

  /** The number of leading `Character.isWhitespace` characters of `s`. */
  function Indentation(s: string): (n: nat)
    ensures n <= |s|
    decreases |s|
  {
    if |s| > 0 && IsWhitespace(s[0]) then 1 + Indentation(s[1..]) else 0
  }

  method GetIndentation(diffLine: string) returns (indentation: nat)
    ensures indentation == Indentation(diffLine)
  {
    indentation := 0;
    while indentation < |diffLine| && IsWhitespace(diffLine[indentation])
      invariant indentation <= |diffLine|
      invariant forall j :: 0 <= j < indentation ==> IsWhitespace(diffLine[j])
      decreases |diffLine| - indentation
    {
      indentation := indentation + 1;
    }
    IndentationIff(diffLine, indentation);
  }

  /** `Indentation(s)` counts the leading run of whitespace: it is the one count whose characters
      are all whitespace and that ends at the end of `s` or at a non-whitespace character. */
  lemma {:induction false} IndentationIff(s: string, n: nat)
    requires n <= |s|
    ensures Indentation(s) == n <==>
              (forall j :: 0 <= j < n ==> IsWhitespace(s[j])) && (n == |s| || !IsWhitespace(s[n]))
    decreases |s|
  {
    if |s| > 0 && IsWhitespace(s[0]) && n > 0 {
      IndentationIff(s[1..], n - 1);
      assert forall j :: 1 <= j < n ==> s[j] == s[1..][j - 1];
    }
  }

  /* ------------------------------------------------------------------------------------------ */
  /* Help texts                                                                                 */
  /* ------------------------------------------------------------------------------------------ */

  /** The line at `k` is a parent for a line indented by `indentation`: it normalises to a
      non-empty text that is indented less. */
  predicate IsParentAt(lines: seq<string>, indentation: nat, k: nat)
    requires k < |lines|
  {
    var previousDiffLine := NormalizedLines(lines)[k];
    previousDiffLine != "" && Indentation(previousDiffLine) < indentation
  }

  /** The do-while of `isPartOfHelp` from index `c` down to 0. */
  function HelpParentScan(lines: seq<string>, indentation: nat, c: int): bool
    requires c < |lines|
    decreases c + 1
  {
    if c < 0 then false
    else if IsParentAt(lines, indentation, c) then IsHelpHeader(Trim(NormalizedLines(lines)[c]))
    else HelpParentScan(lines, indentation, c - 1)
  }

  /** `isPartOfHelp(diffLine, p)`. */
  predicate PartOfHelp(lines: seq<string>, diffLine: string, p: nat)
    requires p < |lines|
  {
    p > 0 && Indentation(diffLine) > 0 && HelpParentScan(lines, Indentation(diffLine), p - 1)
  }

  method IsPartOfHelp(lines: seq<string>, diffLine: string, p: nat) returns (isPartOfHelp: bool)
    requires p < |lines|
    ensures isPartOfHelp == PartOfHelp(lines, diffLine, p)
  {
    isPartOfHelp := false;
    if p > 0 {
      var parentElementFound := false;
      var diffLineIndentation := GetIndentation(diffLine);
      if diffLineIndentation > 0 {
        var diffLineCounter: int := p - 1;
        var again := true;
        while again
          invariant -1 <= diffLineCounter < p
          invariant again == (0 <= diffLineCounter && !parentElementFound)
          invariant !parentElementFound ==>
                      !isPartOfHelp &&
                      PartOfHelp(lines, diffLine, p) == HelpParentScan(lines, diffLineIndentation, diffLineCounter)
          invariant parentElementFound ==> isPartOfHelp == PartOfHelp(lines, diffLine, p)
          decreases diffLineCounter + 1
        {
          var previousDiffLine := Normalize(lines[diffLineCounter]);
          NormalizedPrefixAt(lines, |lines|, diffLineCounter);
          if previousDiffLine != "" {
            var previousDiffLineIndentation := GetIndentation(previousDiffLine);
            if previousDiffLineIndentation < diffLineIndentation {
              parentElementFound := true;
              previousDiffLine := Trim(previousDiffLine);
              if StartsWith(previousDiffLine, "help") || StartsWith(previousDiffLine, "--help--")
                 || StartsWith(previousDiffLine, "comment") {
                isPartOfHelp := true;
              }
            }
          }
          diffLineCounter := diffLineCounter - 1;
          again := diffLineCounter >= 0 && !parentElementFound;
        }
      }
    }
  }

  /* ------------------------------------------------------------------------------------------ */
  /* Relevance                                                                                  */
  /* ------------------------------------------------------------------------------------------ */

  /** `isRelevantChange(cleanDiffLine, p)`: outside help, a definition or include line, or a
      `depends on` line whose element, found backwards, is relevant. */
  predicate Relevant(lines: seq<string>, cleanDiffLine: string, p: nat)
    requires p < |lines|
    decreases p, 1
  {
    !PartOfHelp(lines, cleanDiffLine, p) &&
    (ConfigDefPattern(cleanDiffLine) || FileIncludePattern(cleanDiffLine) ||
     (DependsOnPattern(cleanDiffLine) && DependsScan(lines, p - 1)))
  }

  /** The backward loop of the `depends on` case at index `c`: the first normalised line that is a
      `comment "` line or is itself relevant decides. */
  predicate DependsScan(lines: seq<string>, c: int)
    requires c < |lines|
    decreases c + 1, 0
  {
    if c < 0 then false
    else
      var previousDiffLine := NormalizedLines(lines)[c];
      if ConfigCommentPattern(previousDiffLine) then false
      else if Relevant(lines, previousDiffLine, c) then true
      else DependsScan(lines, c - 1)
  }

  method IsRelevantChange(lines: seq<string>, cleanDiffLine: string, p: nat) returns (isVariabilityChange: bool)
    requires p < |lines|
    ensures isVariabilityChange == Relevant(lines, cleanDiffLine, p)
    decreases p, 1
  {
    isVariabilityChange := false;
    var partOfHelp := IsPartOfHelp(lines, cleanDiffLine, p);
    if !partOfHelp {
      if ConfigDefPattern(cleanDiffLine) || FileIncludePattern(cleanDiffLine) {
        isVariabilityChange := true;
      } else if DependsOnPattern(cleanDiffLine) {
        isVariabilityChange := SearchModelElement(lines, p);
      }
    }
  }

  /** The backward loop of the `depends on` case of `isRelevantChange` at `p`. */
  method SearchModelElement(lines: seq<string>, p: nat) returns (isVariabilityChange: bool)
    requires p < |lines|
    ensures isVariabilityChange == DependsScan(lines, p - 1)
    decreases p, 0
  {
    isVariabilityChange := false;
    var diffLineCounter: int := p - 1;
    var previousModelElementFound := false;
    while diffLineCounter >= 0 && !previousModelElementFound
      invariant -1 <= diffLineCounter < p
      invariant !previousModelElementFound ==>
                  !isVariabilityChange && DependsScan(lines, p - 1) == DependsScan(lines, diffLineCounter)
      invariant previousModelElementFound ==> isVariabilityChange == DependsScan(lines, p - 1)
      decreases diffLineCounter + 1
    {
      var previousDiffLine := Normalize(lines[diffLineCounter]);
      NormalizedPrefixAt(lines, |lines|, diffLineCounter);
      if ConfigCommentPattern(previousDiffLine) {
        previousModelElementFound := true;
      } else {
        var relevant := IsRelevantChange(lines, previousDiffLine, diffLineCounter);
        if relevant {
          previousModelElementFound := true;
          isVariabilityChange := true;
        }
      }
      diffLineCounter := diffLineCounter - 1;
    }
  }
}
