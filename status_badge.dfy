/** The status badge: the CSS class chosen by a switch over the status string, and
    the label that upper-cases the status's first letter. */
module StatusBadge {
  import opened Types

  /** The switch over the status string, default arm included. */
  function StylesFor(status: string): (cls: string)
    ensures |cls| >= 12 && cls[..12] == "status-badge"
  {
    if status == "approved" then "status-badge status-approved"
    else if status == "pending" then "status-badge status-pending"
    else if status == "flagged" then "status-badge status-flagged"
    else "status-badge"
  }

  /** The class of a badge for a status value. */
  function StatusStyles(st: DocumentStatus): (cls: string)
    ensures cls == "status-badge status-" + StatusName(st)
  {
    StylesFor(StatusName(st))
  }

  function UpperChar(c: char): (u: char)
    ensures 'a' <= c <= 'z' ==> 'A' <= u <= 'Z'
    ensures !('a' <= c <= 'z') ==> u == c
  {
    if 'a' <= c <= 'z' then (c as int - 32) as char else c
  }

  /** charAt(0).toUpperCase() + slice(1): the empty string stays empty. */
  function Capitalize(s: string): (r: string)
    ensures |r| == |s|
    ensures |s| > 0 ==> r[0] == UpperChar(s[0]) && r[1..] == s[1..]
  {
    if s == [] then [] else [UpperChar(s[0])] + s[1..]
  }

  /** The text of a badge: the status name with its first letter upper-cased and the
      rest kept. */
  function StatusText(st: DocumentStatus): (text: string)
    ensures |text| == |StatusName(st)|
    ensures text[1..] == StatusName(st)[1..]
    ensures 'A' <= text[0] <= 'Z' && text[0] == UpperChar(StatusName(st)[0])
  {
    Capitalize(StatusName(st))
  }

  /** Each status gets its own class; the default arm is never taken for a
      DocumentStatus, and the three classes are pairwise distinct. */
  lemma StylesPerStatus(s1: DocumentStatus, s2: DocumentStatus)
    ensures StatusStyles(Approved) == "status-badge status-approved"
    ensures StatusStyles(Pending) == "status-badge status-pending"
    ensures StatusStyles(Flagged) == "status-badge status-flagged"
    ensures StatusStyles(s1) != "status-badge"
    ensures s1 != s2 ==> StatusStyles(s1) != StatusStyles(s2)
  {
  }

  /** The badge texts are the capitalised status names. */
  lemma TextPerStatus(s1: DocumentStatus, s2: DocumentStatus)
    ensures StatusText(Pending) == "Pending"
    ensures StatusText(Flagged) == "Flagged"
    ensures StatusText(Approved) == "Approved"
    ensures s1 != s2 ==> StatusText(s1) != StatusText(s2)
  {
    assert StatusText(Pending) == "Pending";
    assert StatusText(Flagged) == "Flagged";
    assert StatusText(Approved) == "Approved";
  }
}
