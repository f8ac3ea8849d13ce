/** `formatDate` of utils/dateUtils.ts: `dd.MM.yyyy HH:mm:ss`. */
module DateUtils {
  import opened NumberText

  /** What the `Date` getters return: `getDate()`, the 0-based `getMonth()`,
      `getFullYear()`, `getHours()`, `getMinutes()`, `getSeconds()`. */
  datatype LocalDate = LocalDate(date: nat, month: nat, fullYear: int, hours: nat, minutes: nat, seconds: nat)

  /** The ranges the getters of a valid date stay in. */
  predicate InRange(d: LocalDate)
  {
    1 <= d.date <= 31 && d.month <= 11 && d.hours <= 23 && d.minutes <= 59 && d.seconds <= 59
  }

  /** `pad(n)`: the decimal text of `n`, left-padded with `'0'` to two characters. */
  function Pad(n: nat): string
  {
    PadStart(DecimalString(n), 2, '0')
  }

  /** `pad(n)` is `'0'` and the digit for 0..9, and the plain decimal text from 10 on:
      two characters up to 99 and not cut after that; reading it back gives `n`. */
  lemma PadSpec(n: nat)
    ensures n <= 9 ==> Pad(n) == ['0', Digit(n)]
    ensures 10 <= n ==> Pad(n) == DecimalString(n)
    ensures n <= 99 <==> |Pad(n)| == 2
    ensures AllDigits(Pad(n)) && DecimalValue(Pad(n)) == n
  {
    if n <= 9 {
      PadOneDigit(n);
    } else {
      PadNoFill(n);
    }
  }

  lemma PadOneDigit(n: nat)
    requires n <= 9
    ensures Pad(n) == ['0', Digit(n)] && AllDigits(Pad(n)) && DecimalValue(Pad(n)) == n
  {
    assert DecimalString(n) == [Digit(n)];
    assert Pad(n) == "0" + DecimalString(n);
    DecimalRoundTrip(n);
    LeadingZeroValue(DecimalString(n));
  }

  lemma PadNoFill(n: nat)
    requires 10 <= n
    ensures Pad(n) == DecimalString(n) && |Pad(n)| >= 2 && AllDigits(Pad(n)) && DecimalValue(Pad(n)) == n
    ensures n <= 99 <==> |Pad(n)| == 2
  {
    DecimalRoundTrip(n);
    assert DecimalString(n) == DecimalString(n / 10) + [Digit(n % 10)];
    assert |DecimalString(n / 10)| == 1 <==> n <= 99;
  }

  function FormatDate(d: LocalDate): string
  {
    Pad(d.date) + "." + Pad(d.month + 1) + "." + NumberToString(d.fullYear) + " "
      + Pad(d.hours) + ":" + Pad(d.minutes) + ":" + Pad(d.seconds)
  }

  /** `dd.MM.`, the text in front of the year. */
  function DatePart(d: LocalDate): string { Pad(d.date) + "." + Pad(d.month + 1) + "." }

  /** ` HH:mm:ss`, the text behind the year. */
  function TimePart(d: LocalDate): string { " " + Pad(d.hours) + ":" + Pad(d.minutes) + ":" + Pad(d.seconds) }

  /** For in-range fields and any year the year is written as `String(year)`,
      neither padded nor cut: with `k` its length the text is `15 + k` characters
      and the year occupies indices 6 to 6 + k, after `dd.MM.` and before ` HH:mm:ss`. */
  lemma FormatDateAnyYear(d: LocalDate)
    requires InRange(d)
    ensures var r, y := FormatDate(d), NumberToString(d.fullYear);
      && |r| == 15 + |y|
      && r[..6] == DatePart(d)
      && r[6..6 + |y|] == y
      && r[6 + |y|..] == TimePart(d)
  {
    PartWidths(d);
    FormatDateSplit(d);
    ThreeParts(FormatDate(d), DatePart(d), NumberToString(d.fullYear), TimePart(d));
  }

  lemma FormatDateSplit(d: LocalDate)
    ensures FormatDate(d) == DatePart(d) + NumberToString(d.fullYear) + TimePart(d)
  {
    SplitAtYear(Pad(d.date), Pad(d.month + 1), NumberToString(d.fullYear), Pad(d.hours), Pad(d.minutes), Pad(d.seconds));
  }

  /** The template regrouped around its year. */
  lemma SplitAtYear(dd: string, mo: string, yy: string, hh: string, mi: string, ss: string)
    ensures dd + "." + mo + "." + yy + " " + hh + ":" + mi + ":" + ss
         == (dd + "." + mo + ".") + yy + (" " + hh + ":" + mi + ":" + ss)
  {
  }

  lemma PartWidths(d: LocalDate)
    requires InRange(d)
    ensures |DatePart(d)| == 6 && |TimePart(d)| == 9
  {
    PadWidth(d.date);
    PadWidth(d.month + 1);
    PadWidth(d.hours);
    PadWidth(d.minutes);
    PadWidth(d.seconds);
  }

  /** Up to 99, `pad(n)` is two digits that denote `n`. */
  lemma PadWidth(n: nat)
    requires n <= 99
    ensures |Pad(n)| == 2 && Denotes(Pad(n), n)
  {
    PadSpec(n);
  }

  /** Where the middle of `a + b + c` sits. */
  lemma ThreeParts(r: string, a: string, b: string, c: string)
    requires r == a + b + c
    ensures |r| == |a| + |b| + |c| && r[..|a|] == a && r[|a|..|a| + |b|] == b && r[|a| + |b|..] == c
  {
  }

  /** With a four-digit year the text is exactly 19 characters, every field at a
      fixed position and the separators at indices 2, 5, 10, 13 and 16. */
  lemma FormatDateLayout(d: LocalDate)
    requires InRange(d) && 1000 <= d.fullYear <= 9999
    ensures var r := FormatDate(d);
      && |r| == 19
      && r[2] == '.' && r[5] == '.' && r[10] == ' ' && r[13] == ':' && r[16] == ':'
      && Denotes(r[0..2], d.date)
      && Denotes(r[3..5], d.month + 1)
      && 1 <= DecimalValue(r[3..5]) <= 12
      && Denotes(r[6..10], d.fullYear)
      && Denotes(r[11..13], d.hours)
      && Denotes(r[14..16], d.minutes)
      && Denotes(r[17..19], d.seconds)
  {
    PadWidth(d.date);
    PadWidth(d.month + 1);
    PadWidth(d.hours);
    PadWidth(d.minutes);
    PadWidth(d.seconds);
    YearWidth(d.fullYear);
    FieldsDenote(FormatDate(d), Pad(d.date), Pad(d.month + 1), NumberToString(d.fullYear),
      Pad(d.hours), Pad(d.minutes), Pad(d.seconds),
      d.date, d.month + 1, d.fullYear, d.hours, d.minutes, d.seconds);
  }

  /** A four-digit year is written with four digits. */
  lemma YearWidth(y: int)
    requires 1000 <= y <= 9999
    ensures |NumberToString(y)| == 4 && Denotes(NumberToString(y), y)
  {
    FourDigits(y);
  }

  /** `FieldsAt` with the value each field denotes. */
  lemma FieldsDenote(r: string, dd: string, mo: string, yy: string, hh: string, mi: string, ss: string,
                     date: nat, month: nat, year: nat, hours: nat, minutes: nat, seconds: nat)
    requires r == dd + "." + mo + "." + yy + " " + hh + ":" + mi + ":" + ss
    requires |dd| == |mo| == |hh| == |mi| == |ss| == 2 && |yy| == 4
    requires Denotes(dd, date) && Denotes(mo, month) && Denotes(yy, year)
    requires Denotes(hh, hours) && Denotes(mi, minutes) && Denotes(ss, seconds)
    ensures |r| == 19
    ensures r[2] == '.' && r[5] == '.' && r[10] == ' ' && r[13] == ':' && r[16] == ':'
    ensures Denotes(r[0..2], date) && Denotes(r[3..5], month) && Denotes(r[6..10], year)
    ensures Denotes(r[11..13], hours) && Denotes(r[14..16], minutes) && Denotes(r[17..19], seconds)
  {
    FieldsAt(r, dd, mo, yy, hh, mi, ss);
  }

  /** Where six fields of widths 2, 2, 4, 2, 2, 2 and their separators sit once joined. */
  lemma FieldsAt(r: string, dd: string, mo: string, yy: string, hh: string, mi: string, ss: string)
    requires r == dd + "." + mo + "." + yy + " " + hh + ":" + mi + ":" + ss
    requires |dd| == |mo| == |hh| == |mi| == |ss| == 2 && |yy| == 4
    ensures |r| == 19
    ensures r[2] == '.' && r[5] == '.' && r[10] == ' ' && r[13] == ':' && r[16] == ':'
    ensures r[0..2] == dd && r[3..5] == mo && r[6..10] == yy
    ensures r[11..13] == hh && r[14..16] == mi && r[17..19] == ss
  {
    var front, back := dd + "." + mo + "." + yy + " ", hh + ":" + mi + ":" + ss;
    assert r == front + back;
    assert r[..11] == front && r[11..] == back;
    assert r[11..13] == back[0..2] && r[14..16] == back[3..5] && r[17..19] == back[6..8];
  }
}
