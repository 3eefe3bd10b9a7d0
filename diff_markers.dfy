/** The diff-line markers shared by every kind of file diff. */
module DiffMarkers {

  /** Marks an added line when found at the start of a line. */
  const LINE_ADDED_MARKER: char := '+'

  /** Marks a deleted line when found at the start of a line. */
  const LINE_DELETED_MARKER: char := '-'

  /** `line.startsWith("+") || line.startsWith("-")`: the line is a change, not context. */
  predicate IsChanged(line: string) {
    |line| > 0 && (line[0] == LINE_ADDED_MARKER || line[0] == LINE_DELETED_MARKER)
  }

  /** Step 1 of both normalizers: remove one leading marker, keep any other line as it is. */
  function StripMarker(line: string): (r: string)
    ensures IsChanged(line) ==> |r| == |line| - 1 && line == [line[0]] + r
    ensures !IsChanged(line) ==> r == line
  {
    if IsChanged(line) then line[1..] else line
  }
}
