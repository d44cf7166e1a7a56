/**
  Naive (time-zone free) calendar timestamps as Python's `datetime` holds
  them, the fixed `%Y-%m-%d %H:%M:%S` text form the monitor writes into every
  event record and reads back when sorting digests, and a microsecond count
  that gives the chronological order and the differences `timedelta` takes.
*/
module DateTimes {
  import opened PyValues

  datatype DateTime = DateTime(year: int, month: int, day: int, hour: int, minute: int, second: int, micro: int)

  predicate IsLeap(y: int) {
    y % 4 == 0 && (y % 100 != 0 || y % 400 == 0)
  }

  function DaysInMonth(y: int, m: int): int
    requires 1 <= m <= 12
  {
    if m == 2 then (if IsLeap(y) then 29 else 28)
    else if m == 4 || m == 6 || m == 9 || m == 11 then 30
    else 31
  }

  /** The values `datetime` accepts: years 1 to 9999 and real calendar days. */
  predicate Valid(d: DateTime) {
    1 <= d.year <= 9999 && 1 <= d.month <= 12 && 1 <= d.day <= DaysInMonth(d.year, d.month)
    && 0 <= d.hour < 24 && 0 <= d.minute < 60 && 0 <= d.second < 60 && 0 <= d.micro < 1000000
  }

  function DaysBeforeMonth(y: int, m: int): int
    requires 1 <= m <= 12
    decreases m
  {
    if m == 1 then 0 else DaysBeforeMonth(y, m - 1) + DaysInMonth(y, m - 1)
  }

  /** Proleptic Gregorian day number, 0001-01-01 being day 1. */
  function Ordinal(d: DateTime): int
    requires Valid(d)
  {
    var p := d.year - 1;
    p * 365 + p / 4 - p / 100 + p / 400 + DaysBeforeMonth(d.year, d.month) + d.day
  }

  /** Microseconds since the start of day 0; differences of these are what `timedelta` holds. */
  function Micros(d: DateTime): int
    requires Valid(d)
  {
    (((Ordinal(d) * 24 + d.hour) * 60 + d.minute) * 60 + d.second) * 1000000 + d.micro
  }

  function DigitAt(s: string, i: nat): nat
    requires i < |s| && IsDigit(s[i])
  {
    s[i] as int - '0' as int
  }

  /** A field printed as exactly two zero-padded digits (`%m`, `%d`, `%H`, `%M`, `%S`). */
  function Two(n: nat): (r: string)
    requires n < 100
    ensures |r| == 2 && IsDigit(r[0]) && IsDigit(r[1])
    ensures DigitAt(r, 0) * 10 + DigitAt(r, 1) == n
  {
    [DigitChar(n / 10), DigitChar(n % 10)]
  }

  /** A year printed as exactly four zero-padded digits (`%Y`). */
  function Four(n: nat): (r: string)
    requires n < 10000
    ensures |r| == 4 && forall i :: 0 <= i < 4 ==> IsDigit(r[i])
    ensures ((DigitAt(r, 0) * 10 + DigitAt(r, 1)) * 10 + DigitAt(r, 2)) * 10 + DigitAt(r, 3) == n
  {
    var hi := Two(n / 100);
    var lo := Two(n % 100);
    assert (hi + lo)[2..] == lo;
    hi + lo
  }

  /** strftime('%Y-%m-%d %H:%M:%S'); the microseconds are not shown. */
  function FormatStamp(d: DateTime): (r: string)
    requires Valid(d)
    ensures |r| == 19
  {
    Four(d.year) + "-" + Two(d.month) + "-" + Two(d.day) + " "
    + Two(d.hour) + ":" + Two(d.minute) + ":" + Two(d.second)
  }

  predicate DigitsAt(s: string, lo: nat, hi: nat)
    requires lo <= hi <= |s|
  {
    forall i :: lo <= i < hi ==> IsDigit(s[i])
  }

  function TwoAt(s: string, i: nat): nat
    requires i + 2 <= |s| && DigitsAt(s, i, i + 2)
  {
    DigitAt(s, i) * 10 + DigitAt(s, i + 1)
  }

  /** The shape strptime demands of the zero-padded form: digits and separators in place. */
  predicate StampShape(s: string) {
    |s| == 19 && s[4] == '-' && s[7] == '-' && s[10] == ' ' && s[13] == ':' && s[16] == ':'
    && DigitsAt(s, 0, 4) && DigitsAt(s, 5, 7) && DigitsAt(s, 8, 10)
    && DigitsAt(s, 11, 13) && DigitsAt(s, 14, 16) && DigitsAt(s, 17, 19)
  }

  /**
    strptime(s, '%Y-%m-%d %H:%M:%S') on the zero-padded form: `None` where
    Python raises `ValueError`.
  */
  function ParseStamp(s: string): (r: Option<DateTime>)
    ensures r.Some? ==> Valid(r.value) && r.value.micro == 0
  {
    if StampShape(s) then
      var d := DateTime(TwoAt(s, 0) * 100 + TwoAt(s, 2), TwoAt(s, 5), TwoAt(s, 8),
                        TwoAt(s, 11), TwoAt(s, 14), TwoAt(s, 17), 0);
      if Valid(d) then Some(d) else None
    else None
  }

  /** Where each field sits in the formatted text. */
  lemma FormatPieces(d: DateTime)
    requires Valid(d)
    ensures var s := FormatStamp(d);
      s[0..4] == Four(d.year) && s[5..7] == Two(d.month) && s[8..10] == Two(d.day)
      && s[11..13] == Two(d.hour) && s[14..16] == Two(d.minute) && s[17..19] == Two(d.second)
      && s[4] == '-' && s[7] == '-' && s[10] == ' ' && s[13] == ':' && s[16] == ':'
  {
  }

  /** Formatting a valid timestamp and parsing it back gives the timestamp (microseconds aside). */
  lemma ParseFormat(d: DateTime)
    requires Valid(d)
    ensures ParseStamp(FormatStamp(d)) == Some(d.(micro := 0))
  {
    var s := FormatStamp(d);
    FormatPieces(d);
    assert StampShape(s);
    assert TwoAt(s, 0) * 100 + TwoAt(s, 2) == d.year;
    assert TwoAt(s, 5) == d.month && TwoAt(s, 8) == d.day;
    assert TwoAt(s, 11) == d.hour && TwoAt(s, 14) == d.minute && TwoAt(s, 17) == d.second;
  }

  lemma TwoBack(s: string, i: nat)
    requires i + 2 <= |s| && DigitsAt(s, i, i + 2)
    ensures TwoAt(s, i) < 100 && Two(TwoAt(s, i)) == s[i..i + 2]
  {
    var a, b := DigitAt(s, i), DigitAt(s, i + 1);
    assert (a * 10 + b) / 10 == a && (a * 10 + b) % 10 == b;
    assert DigitChar(a) == s[i] && DigitChar(b) == s[i + 1];
  }

  lemma FourBack(s: string)
    requires 4 <= |s| && DigitsAt(s, 0, 4)
    ensures TwoAt(s, 0) * 100 + TwoAt(s, 2) < 10000
    ensures Four(TwoAt(s, 0) * 100 + TwoAt(s, 2)) == s[0..4]
  {
    var x, y := TwoAt(s, 0), TwoAt(s, 2);
    TwoBack(s, 0);
    TwoBack(s, 2);
    assert (x * 100 + y) / 100 == x && (x * 100 + y) % 100 == y;
    assert s[0..4] == s[0..2] + s[2..4];
  }

  /** Every text the parser accepts is exactly the formatting of what it parsed. */
  lemma FormatParse(s: string)
    requires ParseStamp(s).Some?
    ensures FormatStamp(ParseStamp(s).value) == s
  {
    FourBack(s);
    TwoBack(s, 5);
    TwoBack(s, 8);
    TwoBack(s, 11);
    TwoBack(s, 14);
    TwoBack(s, 17);
    assert s == s[0..4] + "-" + s[5..7] + "-" + s[8..10] + " " + s[11..13] + ":" + s[14..16] + ":" + s[17..19];
  }
}
