/**
 * The page elements the script writes to, reduced to the properties it
 * touches, and the analytics capability it may call.
 */
module Dom {

  import opened Wrappers

  /** Inline style values the script writes. */
  const DIMMED := "0.6"
  const NOT_ALLOWED := "not-allowed"
  const HAND_CURSOR := "pointer"

  /** The `#version` label. */
  class VersionElement {
    var textContent: string
    var classList: set<string>
    var color: string          // style.color
  }

  /** The `#downloadBtn` link. */
  class DownloadButton {
    var innerHTML: string
    var href: string
    var ariaDisabled: Option<string>  // the aria-disabled attribute, None when absent
    var disabled: bool                // whether the disabled attribute is present
    var opacity: string               // style.opacity
    var cursor: string                // style.cursor
    var clickHandlers: seq<string>    // one entry per click listener: the tag it reports
  }

  /** The `#downloadWrap` container. */
  class DownloadWrap {
    var animation: string             // style.animation
  }

  /** The record passed to the analytics function: `gtag('event', action, {event_category, event_label, value})`. */
  datatype AnalyticsEvent = AnalyticsEvent(action: string, category: string, eventLabel: string, value: int)

  /** An analytics function the page may find at run time; it records what it is sent. */
  class Analytics {
    var sent: seq<AnalyticsEvent>

    method Send(event: AnalyticsEvent)
      modifies this
      ensures sent == old(sent) + [event]
    {
      sent := sent + [event];
    }
  }
}
