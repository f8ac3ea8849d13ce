/** The Angular `ScannerCheckComponent`: its `scanResult` signal and the
    callbacks that change it. */
module ScannerCheckNg {
  import opened Common
  import opened ScanLog

  class ScannerCheckComponent {
    /** The value of the `scanResult` signal. */
    var scanResult: seq<ScanResult>
    /** Barcodes received since the component was created or last cleared. */
    ghost var received: seq<Received>

    ghost predicate Valid()
      reads this
    {
      scanResult == NewestFirst(received)
    }

    /** The signal starts as the empty list. */
    constructor ()
      ensures Valid() && scanResult == [] && received == []
    {
      scanResult := [];
      received := [];
    }

    /** The `scannerInput` subscriber: a new `'clipboard'` entry goes in front. */
    method OnScannerInput(barcode: string, now: int)
      requires Valid()
      modifies this
      ensures Valid() && received == old(received) + [Received(barcode, now)]
      ensures scanResult == Prepend(old(scanResult), ScanResult(barcode, Clipboard, now))
    {
      assert (received + [Received(barcode, now)])[..|received|] == received;
      received := received + [Received(barcode, now)];
      scanResult := [ScanResult(barcode, Clipboard, now)] + scanResult;
    }

    /** `handleClear`: the list becomes empty whatever it held, so a second clear changes nothing. */
    method HandleClear()
      requires Valid()
      modifies this
      ensures Valid() && scanResult == [] && received == []
    {
      scanResult := [];
      received := [];
    }
  }
}
