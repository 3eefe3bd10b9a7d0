/** What the loop of `analyzeDiff` computes: the verdict is "some line reaches the classifier and
    is relevant", lines are handed over in increasing order, blank lines never reach the
    classifier, and nothing after the first relevant line is normalised or classified. */
module FileDiffProperties {
  import opened Strings
  import opened DiffMarkers
  import opened FileDiffs

  /* ------------------------------------------------------------------------------------------ */
  /* The loop over a sequence of outcomes                                                       */
  /* ------------------------------------------------------------------------------------------ */

  lemma {:induction false} ScanFromIff(outs: seq<LineOutcome>, i: nat)
    ensures ScanFrom(outs, i) <==> exists k :: i <= k < |outs| && outs[k] == Relevant
    decreases |outs| - i
  {
    if i < |outs| {
      ScanFromIff(outs, i + 1);
    }
  }

  /** A line is normalised exactly when it is marked and no earlier line was relevant. */
  lemma {:induction false} NormalizeCallsIff(outs: seq<LineOutcome>, i: nat, k: int)
    ensures k in NormalizeCalls(outs, i) <==>
              i <= k < |outs| && outs[k] != Skipped && forall j :: i <= j < k ==> outs[j] != Relevant
    decreases |outs| - i
  {
    if i < |outs| {
      NormalizeCallsIff(outs, i + 1, k);
    }
  }

  /** A line is classified exactly when it reaches the classifier and no earlier line was relevant. */
  lemma {:induction false} ClassifyCallsIff(outs: seq<LineOutcome>, i: nat, k: int)
    ensures k in ClassifyCalls(outs, i) <==>
              i <= k < |outs| && (outs[k] == NotRelevant || outs[k] == Relevant) &&
              forall j :: i <= j < k ==> outs[j] != Relevant
    decreases |outs| - i
  {
    if i < |outs| {
      ClassifyCallsIff(outs, i + 1, k);
    }
  }

  /** Every index of `s` is at least `lo`, and the indices strictly increase. */
  predicate IncreasingFrom(s: seq<nat>, lo: nat) {
    (forall a :: 0 <= a < |s| ==> lo <= s[a]) && (forall a, b :: 0 <= a < b < |s| ==> s[a] < s[b])
  }

  lemma PrependIncreasing(i: nat, s: seq<nat>)
    requires IncreasingFrom(s, i + 1)
    ensures IncreasingFrom([i] + s, i)
  {
    var t := [i] + s;
    forall a, b | 0 <= a < b < |t| ensures t[a] < t[b] {
      assert t[b] == s[b - 1];
      if a > 0 {
        assert t[a] == s[a - 1];
      }
    }
  }

  /** The loop hands lines to `normalize` in strictly increasing order, from its first index on. */
  lemma {:induction false} NormalizeCallsIncrease(outs: seq<LineOutcome>, i: nat)
    ensures IncreasingFrom(NormalizeCalls(outs, i), i)
    decreases |outs| - i
  {
    if i < |outs| {
      NormalizeCallsIncrease(outs, i + 1);
      if outs[i] != Skipped && outs[i] != Relevant {
        PrependIncreasing(i, NormalizeCalls(outs, i + 1));
      }
    }
  }

  /** The loop hands lines to `isRelevantChange` in strictly increasing order, from its first
      index on. */
  lemma {:induction false} ClassifyCallsIncrease(outs: seq<LineOutcome>, i: nat)
    ensures IncreasingFrom(ClassifyCalls(outs, i), i)
    decreases |outs| - i
  {
    if i < |outs| {
      ClassifyCallsIncrease(outs, i + 1);
      if outs[i] == NotRelevant {
        PrependIncreasing(i, ClassifyCalls(outs, i + 1));
      }
    }
  }

  /** The loop ends at a relevant line exactly when it finds one: the last line classified is then
      the verdict's witness. */
  lemma {:induction false} LastClassifiedDecides(outs: seq<LineOutcome>, i: nat)
    ensures var c := ClassifyCalls(outs, i);
      ScanFrom(outs, i) <==> |c| > 0 && c[|c| - 1] < |outs| && outs[c[|c| - 1]] == Relevant
    decreases |outs| - i
  {
    if i < |outs| {
      LastClassifiedDecides(outs, i + 1);
      ClassifyCallsIncrease(outs, i + 1);
      var c := ClassifyCalls(outs, i + 1);
      if |c| > 0 {
        ClassifyCallsIff(outs, i + 1, c[|c| - 1]);
      }
    }
  }

  /* ------------------------------------------------------------------------------------------ */
  /* The loop over a diff                                                                       */
  /* ------------------------------------------------------------------------------------------ */

  /** The outcome sequence read line by line. */
  lemma OutcomesMean(fileType: FileType, lines: seq<string>, considerAllBlocks: bool)
    requires IsModelled(fileType)
    ensures var outs := AllOutcomes(fileType, lines, considerAllBlocks);
      forall i :: 0 <= i < |lines| ==>
        (outs[i] != Skipped <==> Marked(lines, i)) &&
        (outs[i] == NotRelevant || outs[i] == Relevant <==> Reaches(fileType, lines, i)) &&
        (outs[i] == Relevant <==> RelevantLine(fileType, lines, considerAllBlocks, i))
  {
    forall i | 0 <= i < |lines| {
      OutcomesAt(fileType, lines, considerAllBlocks, |lines|, i);
    }
  }

  /** The verdict holds exactly when some line is marked, is not blank after its marker, does
      not normalise to blanks, and is relevant to the classifier of the diff's type. */
  lemma VerdictIff(fileType: FileType, lines: seq<string>, considerAllBlocks: bool)
    requires IsModelled(fileType)
    ensures Verdict(fileType, lines, considerAllBlocks) <==>
              exists i :: 0 <= i < |lines| && RelevantLine(fileType, lines, considerAllBlocks, i)
  {
    ScanFromIff(AllOutcomes(fileType, lines, considerAllBlocks), 0);
    OutcomesMean(fileType, lines, considerAllBlocks);
  }

  /** A diff without added or deleted lines is never relevant. */
  lemma NoChangedLineNoVerdict(fileType: FileType, lines: seq<string>, considerAllBlocks: bool)
    requires IsModelled(fileType)
    requires forall i :: 0 <= i < |lines| ==> !IsChanged(lines[i])
    ensures !Verdict(fileType, lines, considerAllBlocks)
  {
    VerdictIff(fileType, lines, considerAllBlocks);
  }

  /** The lines handed to `normalize` are the marked lines that are not blank after their marker
      and come no later than the first relevant line. */
  lemma NormalizedLinesAre(fileType: FileType, lines: seq<string>, considerAllBlocks: bool, k: int)
    requires IsModelled(fileType)
    ensures k in NormalizeCalls(AllOutcomes(fileType, lines, considerAllBlocks), 0) <==>
              0 <= k < |lines| && Marked(lines, k) &&
              forall j :: 0 <= j < k ==> !RelevantLine(fileType, lines, considerAllBlocks, j)
  {
    NormalizeCallsIff(AllOutcomes(fileType, lines, considerAllBlocks), 0, k);
    OutcomesMean(fileType, lines, considerAllBlocks);
  }

  /** The lines handed to `isRelevantChange` are the lines that reach the classifier, i.e. that
      also do not normalise to blanks, and come no later than the first relevant line. */
  lemma ClassifiedLinesAre(fileType: FileType, lines: seq<string>, considerAllBlocks: bool, k: int)
    requires IsModelled(fileType)
    ensures k in ClassifyCalls(AllOutcomes(fileType, lines, considerAllBlocks), 0) <==>
              0 <= k < |lines| && Reaches(fileType, lines, k) &&
              forall j :: 0 <= j < k ==> !RelevantLine(fileType, lines, considerAllBlocks, j)
  {
    ClassifyCallsIff(AllOutcomes(fileType, lines, considerAllBlocks), 0, k);
    OutcomesMean(fileType, lines, considerAllBlocks);
  }
}
