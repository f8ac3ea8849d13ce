/** The scan log both components keep: newest entry first. */
module ScanLog {
  import opened Common

  /** One row of the log (the `ScanResult` record); the `Date` is its time in milliseconds. */
  datatype ScanResult = ScanResult(barcode: string, source: Channel, timestamp: int)

  /** A barcode as it was received, with the time it was received at. */
  datatype Received = Received(barcode: string, at: int)

  /** The entry the components build for a received barcode: tagged `'clipboard'`
      whichever channel produced it. */
  function NewEntry(x: Received): ScanResult
  {
    ScanResult(x.barcode, Clipboard, x.at)
  }

  /** The updater `current => [newEntry, ...current]`. */
  function Prepend(current: seq<ScanResult>, entry: ScanResult): (r: seq<ScanResult>)
    ensures |r| == |current| + 1
    ensures r[0] == entry && r[1..] == current
  {
    [entry] + current
  }

  /** The log after receiving `received` in order, starting from the empty log. */
  function NewestFirst(received: seq<Received>): (r: seq<ScanResult>)
    ensures |r| == |received|
    ensures received != [] ==> r[0] == NewEntry(received[|received| - 1])
    decreases |received|
  {
    if received == [] then []
    else Prepend(NewestFirst(received[..|received| - 1]), NewEntry(received[|received| - 1]))
  }

  /** The log is the received barcodes in reverse order, each kept unchanged and
      tagged `Clipboard`. */
  lemma {:induction false} NewestFirstReverses(received: seq<Received>)
    ensures |NewestFirst(received)| == |received|
    ensures forall k :: 0 <= k < |received| ==>
      var e := NewestFirst(received)[k];
      e.barcode == received[|received| - 1 - k].barcode && e.source == Clipboard && e.timestamp == received[|received| - 1 - k].at
  {
    if received != [] {
      var p := received[..|received| - 1];
      NewestFirstReverses(p);
      assert NewestFirst(received)[1..] == NewestFirst(p);
    }
  }

  /** After X, Y, Z the log reads Z, Y, X. */
  lemma ThreeScansNewestFirst(x: Received, y: Received, z: Received)
    ensures NewestFirst([x, y, z]) == [NewEntry(z), NewEntry(y), NewEntry(x)]
  {
    assert [x, y, z][..2] == [x, y];
    assert [x, y][..1] == [x];
    assert NewestFirst([x]) == [NewEntry(x)];
    assert NewestFirst([x, y]) == [NewEntry(y), NewEntry(x)];
  }
}
