/** Display helpers of the terminal interface (internal/tui/app.go): the status and priority
  * icons and the byte-wise truncation of long titles. */
module Tui {
  /** A byte of a Go string; `len` and slicing count these. */
  newtype Byte = b: int | 0 <= b < 256

  const Ellipsis: seq<Byte> := [46, 46, 46]

  /** truncateString: strings of at most `max` bytes are kept; longer ones are cut to `max`
    * bytes, the last three of them "..." when `max` leaves room for it. Slicing with a
    * negative bound panics in Go, so `max` is never negative. */
  function TruncateString(s: seq<Byte>, max: int): (r: seq<Byte>)
    requires max >= 0
    ensures |s| <= max ==> r == s
    ensures |s| > max ==> |r| == max
    ensures |s| > max && max <= 3 ==> r == s[..max]
    ensures |s| > max > 3 ==> r[..max - 3] == s[..max - 3] && r[max - 3..] == Ellipsis
  {
    if |s| <= max then s
    else if max <= 3 then s[..max]
    else s[..max - 3] + Ellipsis
  }

  /** Truncating to the same width twice changes nothing the second time. */
  lemma TruncateIdempotent(s: seq<Byte>, max: int)
    requires max >= 0
    ensures TruncateString(TruncateString(s, max), max) == TruncateString(s, max)
  {
  }

  const TodoIcon := "\U{1F4CB}"
  const InProgressIcon := "\U{1F680}"
  const InReviewIcon := "\U{1F440}"
  const CompletedIcon := "\U{2705}"
  const UnknownStatusIcon := "\U{2753}"

  /** statusIcon */
  function StatusIcon(status: string): (icon: string)
    ensures |icon| == 1
  {
    match status
    case "TODO" => TodoIcon
    case "IN_PROGRESS" => InProgressIcon
    case "IN_REVIEW" => InReviewIcon
    case "COMPLETED" => CompletedIcon
    case _ => UnknownStatusIcon
  }

  predicate IsKnownStatus(status: string) {
    status == "TODO" || status == "IN_PROGRESS" || status == "IN_REVIEW" || status == "COMPLETED"
  }

  /** The question mark shows exactly for statuses the interface does not know, and each
    * known status has an icon of its own. */
  lemma StatusIconDistinguishes(a: string, b: string)
    ensures StatusIcon(a) == UnknownStatusIcon <==> !IsKnownStatus(a)
    ensures IsKnownStatus(a) && StatusIcon(a) == StatusIcon(b) ==> a == b
  {
  }

  const HighIcon := "\U{1F534}"
  const MediumIcon := "\U{1F7E1}"
  const LowIcon := "\U{1F7E2}"
  const UnknownPriorityIcon := "\U{26AA}"

  /** priorityIcon */
  function PriorityIcon(priority: string): (icon: string)
    ensures |icon| == 1
  {
    match priority
    case "H" => HighIcon
    case "M" => MediumIcon
    case "L" => LowIcon
    case _ => UnknownPriorityIcon
  }

  predicate IsKnownPriority(priority: string) {
    priority == "H" || priority == "M" || priority == "L"
  }

  /** The white circle shows exactly for unknown priorities; known ones have distinct icons. */
  lemma PriorityIconDistinguishes(a: string, b: string)
    ensures PriorityIcon(a) == UnknownPriorityIcon <==> !IsKnownPriority(a)
    ensures IsKnownPriority(a) && PriorityIcon(a) == PriorityIcon(b) ==> a == b
  {
  }
}
