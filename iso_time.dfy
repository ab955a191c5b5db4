/** Naive timestamps and their ISO 8601 text: the `timestamp` field of every
    rendered record is `datetime.isoformat()` of the creation time, and a
    client reads it back with `datetime.fromisoformat`. */
module IsoTime {
  import opened Values

  datatype DateTime = DateTime(year: nat, month: nat, day: nat,
                               hour: nat, minute: nat, second: nat, microsecond: nat)

  predicate IsLeapYear(y: nat)
  {
    y % 4 == 0 && (y % 100 != 0 || y % 400 == 0)
  }

  function DaysInMonth(y: nat, m: nat): nat
  {
    if m == 2 then (if IsLeapYear(y) then 29 else 28)
    else if m == 4 || m == 6 || m == 9 || m == 11 then 30
    else 31
  }

  /** The ranges Python's `datetime` enforces on construction. */
  predicate Valid(t: DateTime)
  {
    && 1 <= t.year <= 9999
    && 1 <= t.month <= 12
    && 1 <= t.day <= DaysInMonth(t.year, t.month)
    && t.hour < 24 && t.minute < 60 && t.second < 60
    && t.microsecond < 1000000
  }

  /** A naive `datetime` value; the type admits no other. */
  type Timestamp = t: DateTime | Valid(t) witness DateTime(1, 1, 1, 0, 0, 0, 0)

  function Pow10(n: nat): nat
  {
    if n == 0 then 1 else 10 * Pow10(n - 1)
  }

  predicate IsDigit(c: char)
  {
    '0' <= c <= '9'
  }

  predicate AllDigits(s: string)
  {
    forall i :: 0 <= i < |s| ==> IsDigit(s[i])
  }

  /** The last `width` decimal digits of `n`, zero-padded (`%0<width>d`). */
  function Digits(n: nat, width: nat): (s: string)
    ensures |s| == width && AllDigits(s)
  {
    if width == 0 then "" else Digits(n / 10, width - 1) + [(48 + n % 10) as char]
  }

  /** The number a string of decimal digits denotes. */
  function Number(s: string): nat
  {
    if s == [] then 0
    else 10 * Number(s[..|s| - 1]) + (if IsDigit(s[|s| - 1]) then s[|s| - 1] as int - 48 else 0)
  }

  lemma {:induction false} NumberOfDigits(n: nat, width: nat)
    requires n < Pow10(width)
    ensures Number(Digits(n, width)) == n
  {
    if width > 0 {
      NumberOfDigits(n / 10, width - 1);
      var d := Digits(n, width);
      assert d[..|d| - 1] == Digits(n / 10, width - 1);
    }
  }

  /** YYYY-MM-DD */
  function DateText(t: Timestamp): string
  {
    Digits(t.year, 4) + "-" + Digits(t.month, 2) + "-" + Digits(t.day, 2)
  }

  /** HH:MM:SS */
  function ClockText(t: Timestamp): string
  {
    Digits(t.hour, 2) + ":" + Digits(t.minute, 2) + ":" + Digits(t.second, 2)
  }

  /** `.ffffff`, written only when the microseconds are not zero. */
  function FractionText(t: Timestamp): string
  {
    if t.microsecond == 0 then "" else "." + Digits(t.microsecond, 6)
  }

  /** `datetime.isoformat()` with its defaults: separator 'T', no offset. */
  function IsoFormat(t: Timestamp): (s: string)
    ensures |s| == (if t.microsecond == 0 then 19 else 26)
    ensures s[10] == 'T' && s[4] == '-' && s[7] == '-' && s[13] == ':' && s[16] == ':'
  {
    DateText(t) + "T" + ClockText(t) + FractionText(t)
  }

  /** Three digit groups of the given widths, separated by `sep`. */
  function ParseGroups(s: string, w: nat, sep: char): Option<(nat, nat, nat)>
  {
    if |s| == w + 6 && s[w] == sep && s[w + 3] == sep
       && AllDigits(s[..w]) && AllDigits(s[w + 1..w + 3]) && AllDigits(s[w + 4..])
    then Some((Number(s[..w]), Number(s[w + 1..w + 3]), Number(s[w + 4..])))
    else None
  }

  /** `datetime.fromisoformat` on the two shapes `isoformat` produces:
      `YYYY-MM-DD?HH:MM:SS` and the same followed by `.ffffff`, with any
      single separator character; a string that names no real date and
      time is refused. */
  function FromIsoFormat(s: string): (r: Option<Timestamp>)
    ensures r.Some? ==> |s| == 19 || |s| == 26
  {
    if |s| != 19 && |s| != 26 then None
    else
      var date := ParseGroups(s[..10], 4, '-');
      var clock := ParseGroups(s[11..19], 2, ':');
      var fraction := if |s| == 19 then Some(0)
                      else if s[19] == '.' && AllDigits(s[20..]) then Some(Number(s[20..]))
                      else None;
      if date.None? || clock.None? || fraction.None? then None
      else
        var t := DateTime(date.value.0, date.value.1, date.value.2,
                          clock.value.0, clock.value.1, clock.value.2, fraction.value);
        if Valid(t) then Some(t) else None
  }

  lemma GroupsRoundTrip(a: nat, b: nat, c: nat, w: nat, sep: char)
    requires a < Pow10(w) && b < 100 && c < 100
    ensures ParseGroups(Digits(a, w) + [sep] + Digits(b, 2) + [sep] + Digits(c, 2), w, sep)
            == Some((a, b, c))
  {
    var da, db, dc := Digits(a, w), Digits(b, 2), Digits(c, 2);
    var s := da + [sep] + db + [sep] + dc;
    assert |s| == w + 6;
    assert s[..w] == da;
    assert s[w + 1..w + 3] == db;
    assert s[w + 4..] == dc;
    assert s[w] == sep && s[w + 3] == sep;
    NumberOfDigits(a, w);
    NumberOfDigits(b, 2);
    NumberOfDigits(c, 2);
  }

  /** The rendered timestamp reads back as the instant it was rendered from. */
  lemma IsoRoundTrip(t: Timestamp)
    ensures FromIsoFormat(IsoFormat(t)) == Some(t)
  {
    var s := IsoFormat(t);
    assert s[..10] == DateText(t);
    assert s[11..19] == ClockText(t);
    assert Pow10(4) == 10000;
    GroupsRoundTrip(t.year, t.month, t.day, 4, '-');
    GroupsRoundTrip(t.hour, t.minute, t.second, 2, ':');
    assert ParseGroups(s[..10], 4, '-') == Some((t.year, t.month, t.day));
    assert ParseGroups(s[11..19], 2, ':') == Some((t.hour, t.minute, t.second));
    if t.microsecond != 0 {
      assert s[19] == '.';
      assert s[20..] == Digits(t.microsecond, 6);
      assert Pow10(6) == 1000000;
      NumberOfDigits(t.microsecond, 6);
    }
  }
}
