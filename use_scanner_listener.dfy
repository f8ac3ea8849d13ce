/** The `onEvent` paste handler of the `useScannerListener` hook. */
module UseScannerListener {
  import opened Common
  import opened Clipboard
  import UrovoScannerService

  /** The two arguments the hook passes to its `onScan` callback. */
  datatype Scan = Scan(barcode: string, source: Channel)

  /** The handler calls `onScan(text, 'clipboard')` at most once, and only when
      a clipboard object exists and its text is truthy (non-empty). */
  function OnEvent(eventData: Option<string>, windowData: Option<string>): (r: Option<Scan>)
    ensures r.Some? <==> ClipboardText(eventData, windowData).Some? && ClipboardText(eventData, windowData).value != ""
    ensures r.Some? ==> r.value.barcode == ClipboardText(eventData, windowData).value
    ensures r.Some? ==> r.value.barcode != "" && r.value.source == Clipboard
  {
    var clipboardData := ClipboardText(eventData, windowData);
    if clipboardData.Some? && clipboardData.value != "" then Some(Scan(clipboardData.value, Clipboard))
    else None
  }

  /** The hook and the service agree on every paste except one of empty text,
      which the service emits and the hook drops. */
  lemma AgreesWithServiceExceptEmpty(eventData: Option<string>, windowData: Option<string>)
    ensures var service := UrovoScannerService.Run([UrovoScannerService.Paste(eventData, windowData)]).emitted;
      && (OnEvent(eventData, windowData).Some? ==> service == [OnEvent(eventData, windowData).value.barcode])
      && (OnEvent(eventData, windowData).None? ==> service == [] || service == [""])
      && (eventData == Some("") ==> OnEvent(eventData, windowData).None? && service == [""])
  {
    UrovoScannerService.RunSnoc([], UrovoScannerService.Paste(eventData, windowData));
  }
}
