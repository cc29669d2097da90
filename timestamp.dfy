/**
 * `convertTimestamp`, identical in both transforms. Calendar and time-zone rendering
 * (`new Date(...)` followed by `toLocaleString` in a fixed IANA zone) is the host's
 * business: it is the parameter `format`, which yields `None` where the host library throws.
 */
module Timestamp {
  import opened Wrappers
  import opened JsText

  const NoTimestamp := "No timestamp available"
  const InvalidTimestamp := "Invalid timestamp"

  /** The readable timestamp: the formatter's text for a present timestamp, a fixed sentinel otherwise. */
  function ConvertTimestamp(timestamp: string, format: string -> Option<string>): (r: string)
    ensures timestamp == "" ==> r == NoTimestamp
    ensures timestamp != "" && format(timestamp).None? ==> r == InvalidTimestamp
    ensures timestamp != "" && format(timestamp).Some? ==> r == format(timestamp).value
  {
    if timestamp != "" then
      match format(timestamp)
      case Some(text) => text
      case None => InvalidTimestamp
    else
      NoTimestamp
  }

  /** Both transforms default a missing timestamp to the current time before formatting it, so the
      "No timestamp available" branch is never taken there: the text is the formatter's, or the
      sentinel for a timestamp the host library rejects. */
  lemma DefaultedTimestampPresent(timestamp: string, now: string, format: string -> Option<string>)
    requires now != ""
    ensures var t := OrElse(timestamp, now);
      ConvertTimestamp(t, format) == if format(t).Some? then format(t).value else InvalidTimestamp
  {
  }
}
