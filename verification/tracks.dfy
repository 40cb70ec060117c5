/** The three track lines of the railway and the keys both HMIs use for them. */
module Tracks {
  import opened Wrappers

  /** The three track lines: west-east, circle and north-south. */
  datatype Line = WeLine | CcLine | NsLine

  const LineKeys: set<Line> := {WeLine, CcLine, NsLine}

  /** The key the source uses for a line in its ordered dictionaries. */
  function LineName(line: Line): string
  {
    match line
    case WeLine => "weline"
    case CcLine => "ccline"
    case NsLine => "nsline"
  }

  /** The line a dictionary key names, if any. */
  function LineOf(trackID: string): (r: Option<Line>)
    ensures r.Some? ==> LineName(r.value) == trackID
    ensures forall l: Line :: LineName(l) == trackID ==> r == Some(l)
  {
    if trackID == "weline" then Some(WeLine)
    else if trackID == "ccline" then Some(CcLine)
    else if trackID == "nsline" then Some(NsLine)
    else None
  }
}
