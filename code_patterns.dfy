/** The fixed comment markers and preprocessor regular expressions of the code classifier, each
    written as a predicate with the whole-string semantics of `Pattern.matches`. The regular
    expression is quoted in each doc comment; `.` is taken to match every character. */
module CodePatterns {
  import opened Strings

  const CODE_SL_COMMENT_MARKER: string := "//"
  const CODE_ML_COMMENT_START_MARKER: string := "/*"
  const CODE_ML_COMMENT_END_MARKER: string := "*/"

  /** `#\s*kw` with the `#` at index `i`; what follows `kw` is not constrained. */
  predicate DirectiveAt(s: string, i: nat, kw: string) {
    i < |s| && s[i] == '#' && StartsWith(s[SkipSpaces(s, i + 1)..], kw)
  }

  /** The characters that may precede a configuration option: `\s`, `(`, `[`, `{`, `<`, `)`, `]`, `}`, `>`. */
  predicate IsVarDelimiter(c: char) {
    IsRegexSpace(c) || c in "([{<)]}>"
  }

  /** `!CONFIG_` or `CONFIG_` starts at index `j`. */
  predicate ConfigRefAt(s: string, j: nat)
    requires j <= |s|
  {
    StartsWith(s[j..], "CONFIG_") || StartsWith(s[j..], "!CONFIG_")
  }

  /** CODE_VAR_PATTERN, `.*(\s+|\(|\[|\{|\<|\)|\]|\}|\>)\!?CONFIG_.*`: a delimiter directly followed by
      an optionally negated `CONFIG_` symbol. (A run `\s+` ends in a single `\s` before the symbol.) */
  predicate VarPattern(s: string) {
    exists i :: 0 <= i < |s| && VarRefAt(s, i)
  }

  /** A delimiter at index `i` directly followed by an optionally negated `CONFIG_` symbol. */
  predicate VarRefAt(s: string, i: int) {
    0 <= i < |s| && IsVarDelimiter(s[i]) && ConfigRefAt(s, i + 1)
  }

  /** CODE_IFDEF_PATTERN, `#\s*(ifdef|ifndef)`: nothing may follow the keyword. */
  predicate IfdefPattern(s: string) {
    |s| > 0 && s[0] == '#' && (s[SkipSpaces(s, 1)..] == "ifdef" || s[SkipSpaces(s, 1)..] == "ifndef")
  }

  /** CODE_IF_PATTERN, `#\s*(if|elif).*`; it also matches `#ifdef ...` and `#ifndef ...`. */
  predicate IfPattern(s: string) {
    DirectiveAt(s, 0, "if") || DirectiveAt(s, 0, "elif")
  }

  /** CODE_VAR_IFDEF_PATTERN, `#\s*(ifdef|ifndef)` followed by CODE_VAR_PATTERN. */
  predicate VarIfdefPattern(s: string) {
    |s| > 0 && s[0] == '#' &&
    var k := SkipSpaces(s, 1);
    (StartsWith(s[k..], "ifdef") && VarPattern(s[k + 5..])) ||
    (StartsWith(s[k..], "ifndef") && VarPattern(s[k + 6..]))
  }

  /** CODE_VAR_IF_PATTERN, `#\s*(if|elif).*` followed by CODE_VAR_IF_CONDITION_PATTERN
      `\!?.*(\!?(defined|IS_BUILTIN|IS_MODULE|IS_REACHABLE|IS_ENABLED)\()?` + CODE_VAR_PATTERN.
      The optional helper-macro group stands between two `.*`, so it never changes what matches:
      the pattern holds iff the text after the keyword matches CODE_VAR_PATTERN. */
  predicate VarIfPattern(s: string) {
    |s| > 0 && s[0] == '#' &&
    var k := SkipSpaces(s, 1);
    (StartsWith(s[k..], "if") && VarPattern(s[k + 2..])) ||
    (StartsWith(s[k..], "elif") && VarPattern(s[k + 4..]))
  }

  /** CODE_VAR_IF_START_PATTERN, `.*((CODE_VAR_IFDEF_PATTERN)|(CODE_VAR_IF_PATTERN))`. */
  predicate VarIfStartPattern(s: string) {
    exists j :: 0 <= j < |s| && VarIfStartAt(s, j)
  }

  /** A CODE_VAR_IFDEF_PATTERN or CODE_VAR_IF_PATTERN match begins at index `j` and runs to the end. */
  predicate VarIfStartAt(s: string, j: int) {
    0 <= j < |s| && (VarIfdefPattern(s[j..]) || VarIfPattern(s[j..]))
  }

  /** CODE_END_IF_PATTERN, `.*#\s*endif.*`. */
  predicate EndIfPattern(s: string) {
    exists i :: 0 <= i < |s| && DirectiveAt(s, i, "endif")
  }

  /** CODE_ELSE_PATTERN, `.*#\s*else.*`. */
  predicate ElsePattern(s: string) {
    exists i :: 0 <= i < |s| && DirectiveAt(s, i, "else")
  }

  /** CODE_IF_END_PATTERN, `.*#\s*(else|endif).*`. */
  predicate IfEndPattern(s: string) {
    ElsePattern(s) || EndIfPattern(s)
  }

  /** The test used by the nested-block scans: CODE_IFDEF_PATTERN, CODE_IF_PATTERN or CODE_ELSE_PATTERN. */
  predicate IsOpenerOrElse(s: string) {
    IfdefPattern(s) || IfPattern(s) || ElsePattern(s)
  }

  /** A CODE_VAR_PATTERN match in a suffix of `s` is a match in every longer suffix. */
  lemma VarPatternWidens(s: string, a: nat, b: nat)
    requires a <= b <= |s| && VarPattern(s[b..])
    ensures VarPattern(s[a..])
  {
    var i :| 0 <= i < |s[b..]| && VarRefAt(s[b..], i);
    assert s[a..][i + b - a] == s[b..][i];
    assert s[a..][i + b - a + 1..] == s[b..][i + 1..];
    assert VarRefAt(s[a..], i + b - a);
  }

  /** Every line that CODE_VAR_IFDEF_PATTERN accepts is accepted by CODE_VAR_IF_PATTERN and by
      CODE_IF_PATTERN too, since `ifdef` and `ifndef` both begin with `if`. */
  lemma VarIfdefIsVarIf(s: string)
    requires VarIfdefPattern(s)
    ensures VarIfPattern(s) && IfPattern(s)
  {
    var k := SkipSpaces(s, 1);
    if StartsWith(s[k..], "ifdef") && VarPattern(s[k + 5..]) {
      assert s[k..][..2] == "if";
      VarPatternWidens(s, k + 2, k + 5);
    } else {
      assert s[k..][..2] == "if";
      VarPatternWidens(s, k + 2, k + 6);
    }
  }

  /** The `#`-anchored patterns reject every line that does not begin with `#`, in particular a
      stored diff line beginning with `+`, `-` or a space; of the block patterns only
      CODE_IF_END_PATTERN, anchored by `.*`, can accept such a line. */
  lemma AnchoredPatternsNeedHash(s: string)
    requires |s| == 0 || s[0] != '#'
    ensures !IfdefPattern(s) && !IfPattern(s) && !VarIfdefPattern(s) && !VarIfPattern(s)
    ensures IsOpenerOrElse(s) <==> ElsePattern(s)
  {
  }
}
