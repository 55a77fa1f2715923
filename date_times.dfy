/**
 * Naive `datetime` values with `isoformat()` and `datetime.fromisoformat()`,
 * for the timestamps that memory records carry and serialise.
 */
module DateTimes {
  import opened Wrappers
  import opened Text

  datatype DateTime = DateTime(year: nat, month: nat, day: nat, hour: nat, minute: nat, second: nat, microsecond: nat)

  predicate IsLeapYear(y: nat)
  {
    (y % 4 == 0 && y % 100 != 0) || y % 400 == 0
  }

  function DaysInMonth(y: nat, m: nat): nat
  {
    if m == 2 then (if IsLeapYear(y) then 29 else 28)
    else if m == 4 || m == 6 || m == 9 || m == 11 then 30
    else 31
  }

  /** The values Python's `datetime` constructor accepts. */
  predicate Valid(d: DateTime)
  {
    1 <= d.year <= 9999 && 1 <= d.month <= 12 && 1 <= d.day <= DaysInMonth(d.year, d.month)
    && d.hour < 24 && d.minute < 60 && d.second < 60 && d.microsecond < 1000000
  }

  function Pow10(w: nat): (p: nat)
    ensures p >= 1
  {
    if w == 0 then 1 else 10 * Pow10(w - 1)
  }

  /** The `w` low decimal digits of `n`, zero-padded (Python's `%0wd` for `n < 10^w`). */
  function Pad(n: nat, w: nat): (r: string)
    ensures |r| == w && AllDigits(r)
  {
    if w == 0 then "" else Pad(n / 10, w - 1) + [DigitChar(n % 10)]
  }

  lemma {:induction false} PadValue(n: nat, w: nat)
    requires n < Pow10(w)
    ensures DigitsValue(Pad(n, w)) == n
  {
    if w > 0 {
      var q, d := n / 10, n % 10;
      assert n == 10 * q + d;
      assert q < Pow10(w - 1);
      PadValue(q, w - 1);
      var r := Pad(n, w);
      assert r == Pad(q, w - 1) + [DigitChar(d)];
      assert r[..|r| - 1] == Pad(q, w - 1);
      assert DigitValue(r[|r| - 1]) == d;
    }
  }

  /** `YYYY-MM-DD`. */
  function DatePart(d: DateTime): (r: string)
    ensures |r| == 10
  {
    Pad(d.year, 4) + "-" + Pad(d.month, 2) + "-" + Pad(d.day, 2)
  }

  /** `HH:MM:SS`. */
  function TimePart(d: DateTime): (r: string)
    ensures |r| == 8
  {
    Pad(d.hour, 2) + ":" + Pad(d.minute, 2) + ":" + Pad(d.second, 2)
  }

  /** `d.isoformat()`: `YYYY-MM-DDTHH:MM:SS`, followed by `.ffffff` only when the microseconds are not zero. */
  function IsoFormat(d: DateTime): (r: string)
    ensures |r| == if d.microsecond == 0 then 19 else 26
  {
    DatePart(d) + "T" + TimePart(d) + (if d.microsecond == 0 then "" else "." + Pad(d.microsecond, 6))
  }

  /** A fixed-width numeric field: its value when it is all digits. */
  function FieldValue(t: string): (r: Option<nat>)
  {
    if AllDigits(t) then Some(DigitsValue(t)) else None
  }

  lemma FieldValueOfPad(n: nat, w: nat)
    requires n < Pow10(w)
    ensures FieldValue(Pad(n, w)) == Some(n)
  {
    PadValue(n, w);
  }

  /**
   * `datetime.fromisoformat(s)` for the two shapes `isoformat()` produces; any other
   * text, or fields out of range, is the ValueError case.
   */
  function FromIsoFormat(s: string): (r: Result<DateTime>)
    ensures r.Ok? ==> Valid(r.value)
  {
    if !(|s| == 19 || (|s| == 26 && s[19] == '.')) then Err("Invalid isoformat string")
    else if s[4] != '-' || s[7] != '-' || s[10] != 'T' || s[13] != ':' || s[16] != ':' then Err("Invalid isoformat string")
    else
      var y, mo, dd := FieldValue(s[0..4]), FieldValue(s[5..7]), FieldValue(s[8..10]);
      var h, mi, se := FieldValue(s[11..13]), FieldValue(s[14..16]), FieldValue(s[17..19]);
      var us := if |s| == 26 then FieldValue(s[20..26]) else Some(0);
      if y.None? || mo.None? || dd.None? || h.None? || mi.None? || se.None? || us.None? then Err("Invalid isoformat string")
      else
        var d := DateTime(y.value, mo.value, dd.value, h.value, mi.value, se.value, us.value);
        if Valid(d) then Ok(d) else Err("Invalid isoformat string")
  }

  /** The pieces of `a + [sep] + b + [sep] + c` sit where the parser looks for them. */
  lemma Pieces(a: string, b: string, c: string, sep: char)
    requires |b| == 2 && |c| == 2
    ensures var t := a + [sep] + b + [sep] + c; var w := |a|;
      && |t| == w + 6 && t[w] == sep && t[w + 3] == sep
      && t[0..w] == a && t[w + 1..w + 3] == b && t[w + 4..w + 6] == c
  {
  }

  /** A slice of a slice is a slice of the whole. */
  lemma SubSlice(s: string, i: nat, j: nat, k: nat, l: nat)
    requires i <= j <= |s| && k <= l <= j - i
    ensures s[i..j][k..l] == s[i + k..i + l]
  {
    assert forall x :: 0 <= x < l - k ==> s[i..j][k..l][x] == s[i + k..i + l][x];
  }

  /** Where `isoformat()` puts each field. */
  lemma IsoLayout(d: DateTime)
    ensures var s := IsoFormat(d);
      && s[4] == '-' && s[7] == '-' && s[10] == 'T' && s[13] == ':' && s[16] == ':'
      && s[0..4] == Pad(d.year, 4) && s[5..7] == Pad(d.month, 2) && s[8..10] == Pad(d.day, 2)
      && s[11..13] == Pad(d.hour, 2) && s[14..16] == Pad(d.minute, 2) && s[17..19] == Pad(d.second, 2)
      && (d.microsecond != 0 ==> s[19] == '.' && s[20..26] == Pad(d.microsecond, 6))
  {
    var dp, tp := DatePart(d), TimePart(d);
    Pieces(Pad(d.year, 4), Pad(d.month, 2), Pad(d.day, 2), '-');
    Pieces(Pad(d.hour, 2), Pad(d.minute, 2), Pad(d.second, 2), ':');
    var frac := if d.microsecond == 0 then "" else "." + Pad(d.microsecond, 6);
    var s := IsoFormat(d);
    assert s == dp + "T" + tp + frac;
    assert s[0..10] == dp && s[10] == 'T' && s[11..19] == tp && s[19..] == frac;
    SubSlice(s, 0, 10, 0, 4); SubSlice(s, 0, 10, 5, 7); SubSlice(s, 0, 10, 8, 10);
    SubSlice(s, 11, 19, 0, 2); SubSlice(s, 11, 19, 3, 5); SubSlice(s, 11, 19, 6, 8);
    if d.microsecond != 0 {
      SubSlice(s, 19, |s|, 1, 7);
    }
  }

  /** `datetime.fromisoformat(d.isoformat()) == d`. */
  lemma IsoRoundTrip(d: DateTime)
    requires Valid(d)
    ensures FromIsoFormat(IsoFormat(d)) == Ok(d)
  {
    IsoLayout(d);
    FieldValueOfPad(d.year, 4); FieldValueOfPad(d.month, 2); FieldValueOfPad(d.day, 2);
    FieldValueOfPad(d.hour, 2); FieldValueOfPad(d.minute, 2); FieldValueOfPad(d.second, 2);
    if d.microsecond != 0 {
      FieldValueOfPad(d.microsecond, 6);
    }
  }

  /** A key that orders valid datetimes chronologically (lexicographically by field). */
  function Ordinal(d: DateTime): int
  {
    ((((((d.year * 13 + d.month) * 32 + d.day) * 24 + d.hour) * 60 + d.minute) * 60 + d.second) * 1000000) + d.microsecond
  }
}
