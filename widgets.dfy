/** The two widgets with logic of their own (src/gui/widgets.py): the
    hours / minutes / seconds entry and the labelled progress bar. The Tk
    drawing is not modelled; the widget variables are fields. */
module Widgets {
  import opened Common

  /** The three spinbox values of a TimeEntry. */
  datatype Hms = Hms(hours: int, minutes: int, seconds: int)

  /** get_total_seconds on given spinbox values. */
  function TotalSeconds(t: Hms): int
  {
    t.hours * 3600 + t.minutes * 60 + t.seconds
  }

  /** The split set_total_seconds performs: Python's // and % by a positive
      divisor round toward minus infinity, which is what Dafny's Euclidean
      / and % do for a positive divisor, so negative totals split the same way. */
  function SplitSeconds(n: int): (t: Hms)
    ensures 0 <= t.minutes <= 59 && 0 <= t.seconds <= 59
  {
    Hms(n / 3600, (n % 3600) / 60, n % 60)
  }

  /** (n % 3600) // 60 and n % 60 together with n // 3600 add back up to n. */
  lemma SplitSecondsRoundTrip(n: int)
    ensures TotalSeconds(SplitSeconds(n)) == n
  {
    var r := n % 3600;
    assert n == (n / 3600) * 3600 + r;
    assert r == (r / 60) * 60 + r % 60;
    assert n % 60 == r % 60 by {
      assert n == ((n / 3600) * 60 + r / 60) * 60 + r % 60;
      DivMod60(n, (n / 3600) * 60 + r / 60, r % 60);
    }
  }

  /** Division with remainder by 60 has one answer. */
  lemma DivMod60(n: int, q: int, r: int)
    requires 0 <= r < 60 && n == q * 60 + r
    ensures n / 60 == q && n % 60 == r
  {
  }

  /** Division with remainder by 3600 has one answer. */
  lemma DivMod3600(n: int, q: int, r: int)
    requires 0 <= r < 3600 && n == q * 3600 + r
    ensures n / 3600 == q && n % 3600 == r
  {
  }

  /** Splitting a total gives the spinbox values back exactly when minutes and
      seconds are within 0..59; the hours are never clamped. */
  lemma SplitOfTotal(t: Hms)
    ensures SplitSeconds(TotalSeconds(t)) == t <==> 0 <= t.minutes <= 59 && 0 <= t.seconds <= 59
  {
    if 0 <= t.minutes <= 59 && 0 <= t.seconds <= 59 {
      var n := TotalSeconds(t);
      var r := t.minutes * 60 + t.seconds;
      assert 0 <= r < 3600;
      DivMod3600(n, t.hours, r);
      DivMod60(r, t.minutes, t.seconds);
      DivMod60(n, t.hours * 60 + t.minutes, t.seconds);
    }
  }

  /** 25 hours is shown as 25 even though the hours spinbox stops at 23. */
  lemma HoursNotClamped()
    ensures SplitSeconds(90000) == Hms(25, 0, 0)
  {
  }

  /** One second before zero is -1 h 59 min 59 s, as Python's floor division gives. */
  lemma NegativeTotal()
    ensures SplitSeconds(-1) == Hms(-1, 59, 59)
  {
  }

  class TimeEntry {
    var hours: int
    var minutes: int
    var seconds: int

    /** The spinbox values. */
    function Shown(): Hms
      reads this
    {
      Hms(hours, minutes, seconds)
    }

    /** A fresh entry shows 0 h 0 min 0 s. */
    constructor ()
      ensures Shown() == Hms(0, 0, 0) && GetTotalSeconds() == 0
    {
      hours := 0;
      minutes := 0;
      seconds := 0;
    }

    /** get_total_seconds. */
    function GetTotalSeconds(): int
      reads this
    {
      TotalSeconds(Shown())
    }

    /** set_total_seconds(n): the entry shows the split of n, and reading the
        total afterwards gives n back. */
    method SetTotalSeconds(n: int)
      modifies this
      ensures Shown() == SplitSeconds(n)
      ensures GetTotalSeconds() == n
    {
      hours := n / 3600;
      minutes := (n % 3600) / 60;
      seconds := n % 60;
      SplitSecondsRoundTrip(n);
    }
  }

  /** min(100, max(0, value)). */
  function Clamp(value: real): (c: real)
    ensures 0.0 <= c <= 100.0
    ensures 0.0 <= value <= 100.0 ==> c == value
    ensures value < 0.0 ==> c == 0.0
    ensures value > 100.0 ==> c == 100.0
  {
    var low := if 0.0 > value then 0.0 else value;
    if 100.0 < low then 100.0 else low
  }

  /** What the percentage label (its readout) shows: a caller's text, or the value formatted
      with one decimal and a percent sign. */
  datatype Label = Caption(text: string) | Percent(value: real)

  class ProgressBarWithLabel {
    const text: string
    var progress: real
    var readout: Label

    /** A new bar is empty and its label reads "0%". */
    constructor (text: string := "")
      ensures this.text == text && progress == 0.0 && readout == Caption("0%")
    {
      this.text := text;
      progress := 0.0;
      readout := Caption("0%");
    }

    /** set_progress(value, text): the bar takes the clamped value; the label
        shows a non-empty text, or else the value as given, not clamped. */
    method SetProgress(value: real, text: Option<string> := None)
      modifies this
      ensures progress == Clamp(value)
      ensures text.Some? && text.value != "" ==> readout == Caption(text.value)
      ensures !(text.Some? && text.value != "") ==> readout == Percent(value)
    {
      progress := Clamp(value);
      if text.Some? && text.value != "" {
        readout := Caption(text.value);
      } else {
        readout := Percent(value);
      }
    }
  }
}
