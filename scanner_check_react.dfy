/** The React `ScannerCheckComponent`: its `results` state, the scan callback it
    hands to `useScannerListener`, `handleClear`, and its own date and time formatting. */
module ScannerCheckReact {
  import opened Common
  import opened ScanLog
  import opened NumberText
  import DateUtils
  import UseScannerListener

  class ScannerCheckComponent {
    /** The `results` state. */
    var results: seq<ScanResult>
    /** Barcodes received since the component was mounted or last cleared. */
    ghost var received: seq<Received>

    ghost predicate Valid()
      reads this
    {
      results == NewestFirst(received)
    }

    /** `useState([])`. */
    constructor ()
      ensures Valid() && results == [] && received == []
    {
      results := [];
      received := [];
    }

    /** The callback: the channel argument is ignored and the entry is tagged `'clipboard'`. */
    method OnScan(barcode: string, channel: Channel, now: int)
      requires Valid()
      modifies this
      ensures Valid() && received == old(received) + [Received(barcode, now)]
      ensures results == Prepend(old(results), ScanResult(barcode, Clipboard, now))
    {
      assert (received + [Received(barcode, now)])[..|received|] == received;
      received := received + [Received(barcode, now)];
      results := [ScanResult(barcode, Clipboard, now)] + results;
    }

    /** A paste reaching the hook's handler, which calls `OnScan` at most once. */
    method OnPaste(eventData: Option<string>, windowData: Option<string>, now: int)
      requires Valid()
      modifies this
      ensures Valid()
      ensures var scan := UseScannerListener.OnEvent(eventData, windowData);
        && (scan.None? ==> results == old(results) && received == old(received))
        && (scan.Some? ==> results == Prepend(old(results), ScanResult(scan.value.barcode, Clipboard, now)))
    {
      var scan := UseScannerListener.OnEvent(eventData, windowData);
      if scan.Some? {
        OnScan(scan.value.barcode, scan.value.source, now);
      }
    }

    /** `handleClear`: the list becomes empty whatever it held. */
    method HandleClear()
      requires Valid()
      modifies this
      ensures Valid() && results == [] && received == []
    {
      results := [];
      received := [];
    }
  }

  /** `formatDate`: `dd.MM.yyyy`. */
  function FormatDate(d: DateUtils.LocalDate): string
  {
    DateUtils.Pad(d.date) + "." + DateUtils.Pad(d.month + 1) + "."
      + NumberToString(d.fullYear)
  }

  /** `formatTime`: `HH:mm:ss`. */
  function FormatTime(d: DateUtils.LocalDate): string
  {
    DateUtils.Pad(d.hours) + ":" + DateUtils.Pad(d.minutes) + ":"
      + DateUtils.Pad(d.seconds)
  }

  /** The component's two formats, joined by a space, are the utility's `formatDate`. */
  lemma FormatsMatchDateUtils(d: DateUtils.LocalDate)
    ensures DateUtils.FormatDate(d) == FormatDate(d) + " " + FormatTime(d)
  {
    Regroup(DateUtils.Pad(d.date), DateUtils.Pad(d.month + 1), NumberToString(d.fullYear),
            DateUtils.Pad(d.hours), DateUtils.Pad(d.minutes), DateUtils.Pad(d.seconds));
  }

  lemma Regroup(dd: string, mo: string, yy: string, hh: string, mi: string, ss: string)
    ensures dd + "." + mo + "." + yy + " " + hh + ":" + mi + ":" + ss
         == (dd + "." + mo + "." + yy) + " " + (hh + ":" + mi + ":" + ss)
  {
  }

  /** For any year the year is written as `String(year)`, neither padded nor cut:
      it is everything after the six characters `dd.MM.`. */
  lemma FormatDateAnyYear(d: DateUtils.LocalDate)
    requires 1 <= d.date <= 31 && d.month <= 11
    ensures var r, y := FormatDate(d), NumberToString(d.fullYear);
      && |r| == 6 + |y| && r[..6] == DateUtils.DatePart(d) && r[6..] == y
  {
    DateUtils.PadWidth(d.date);
    DateUtils.PadWidth(d.month + 1);
    assert FormatDate(d) == DateUtils.DatePart(d) + NumberToString(d.fullYear);
  }

  /** For in-range fields and a four-digit year: ten characters, the two-digit
      day, a dot, the two-digit 1-based month, a dot, the year. */
  lemma FormatDateLayout(d: DateUtils.LocalDate)
    requires 1 <= d.date <= 31 && d.month <= 11 && 1000 <= d.fullYear <= 9999
    ensures var r := FormatDate(d);
      && |r| == 10 && r[2] == '.' && r[5] == '.'
      && Denotes(r[0..2], d.date)
      && Denotes(r[3..5], d.month + 1)
      && Denotes(r[6..10], d.fullYear)
  {
    DateUtils.PadWidth(d.date);
    DateUtils.PadWidth(d.month + 1);
    DateUtils.YearWidth(d.fullYear);
    ThreeFieldsAt(FormatDate(d), DateUtils.Pad(d.date), ".", DateUtils.Pad(d.month + 1), ".", NumberToString(d.fullYear));
  }

  /** For in-range fields: eight characters, `HH:mm:ss`, each field two digits. */
  lemma FormatTimeLayout(d: DateUtils.LocalDate)
    requires d.hours <= 23 && d.minutes <= 59 && d.seconds <= 59
    ensures var r := FormatTime(d);
      && |r| == 8 && r[2] == ':' && r[5] == ':'
      && Denotes(r[0..2], d.hours)
      && Denotes(r[3..5], d.minutes)
      && Denotes(r[6..8], d.seconds)
  {
    DateUtils.PadWidth(d.hours);
    DateUtils.PadWidth(d.minutes);
    DateUtils.PadWidth(d.seconds);
    ThreeFieldsAt(FormatTime(d), DateUtils.Pad(d.hours), ":", DateUtils.Pad(d.minutes), ":", DateUtils.Pad(d.seconds));
  }

  /** Where the pieces of `a + s + b + t + c` sit when `a` and `b` are two characters long. */
  lemma ThreeFieldsAt(r: string, a: string, s: string, b: string, t: string, c: string)
    requires r == a + s + b + t + c
    requires |a| == |b| == 2 && |s| == |t| == 1
    ensures |r| == 6 + |c| && r[2] == s[0] && r[5] == t[0]
    ensures r[0..2] == a && r[3..5] == b && r[6..|r|] == c
  {
  }
}
