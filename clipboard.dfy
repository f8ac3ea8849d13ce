/** Choosing the clipboard object of a paste event. */
module Clipboard {
  import opened Common

  /** `event.clipboardData || window.clipboardData`, followed by `getData('text')`.
      Each argument stands for one clipboard object: `None` when it is absent,
      `Some(t)` when it is present and its `getData('text')` returns `t`.
      The event's own object wins whenever it exists. */
  function ClipboardText(eventData: Option<string>, windowData: Option<string>): (r: Option<string>)
    ensures r.Some? <==> eventData.Some? || windowData.Some?
    ensures eventData.Some? ==> r == eventData
    ensures eventData.None? ==> r == windowData
  {
    if eventData.Some? then eventData else windowData
  }
}
