/**
 * `normalize_date_format` and its helper `parse_date_slashes`: turning a
 * user-entered date into the calendar-date extended form YYYY-MM-DD of
 * ISO 8601:2004, section 4.1.2.2, where the input allows it.
 */
module DateUtils {
  import opened Wrappers
  import opened Strings

  const U32_MAX: nat := 0xFFFF_FFFF
  const I32_MAX: nat := 0x7FFF_FFFF
  /** The magnitude of `i32::MIN`. */
  const I32_MIN_MAGNITUDE: nat := 0x8000_0000

  predicate IsDigit(c: char) {
    '0' <= c <= '9'
  }

  predicate AllDigits(s: String) {
    forall i :: 0 <= i < |s| ==> IsDigit(s[i])
  }

  function DigitValue(c: char): nat
    requires IsDigit(c)
  {
    c as int - '0' as int
  }

  /** The value of a run of decimal digits, most significant first. */
  function DigitsValue(s: String): nat
    requires AllDigits(s)
  {
    if s == [] then 0 else DigitsValue(s[..|s| - 1]) * 10 + DigitValue(s[|s| - 1])
  }

  /** `str::parse::<u32>()`: an optional `+`, then at least one ASCII digit, and a value that fits. */
  function ParseU32(s: String): (r: Option<nat>)
    ensures r.Some? ==> r.value <= U32_MAX
  {
    var digits := if |s| > 0 && s[0] == '+' then s[1..] else s;
    if digits == [] || !AllDigits(digits) || DigitsValue(digits) > U32_MAX then None
    else Some(DigitsValue(digits))
  }

  /** `str::parse::<i32>()`: an optional `+` or `-`, then at least one ASCII digit, and a value that fits. */
  function ParseI32(s: String): (r: Option<int>)
    ensures r.Some? ==> -(I32_MIN_MAGNITUDE as int) <= r.value <= I32_MAX
  {
    var negative := |s| > 0 && s[0] == '-';
    var digits := if |s| > 0 && (s[0] == '+' || s[0] == '-') then s[1..] else s;
    if digits == [] || !AllDigits(digits) then None
    else if negative then
      var magnitude: int := DigitsValue(digits);
      if magnitude <= I32_MIN_MAGNITUDE then Some(-magnitude) else None
    else
      if DigitsValue(digits) <= I32_MAX then Some(DigitsValue(digits)) else None
  }

  /** The decimal digits of `n`, most significant first, without leading zeros. */
  function Digits(n: nat): (r: String)
    ensures |r| >= 1 && AllDigits(r) && DigitsValue(r) == n
    ensures r[0] == '0' ==> n == 0
  {
    if n < 10 then [('0' as int + n) as char]
    else
      var r := Digits(n / 10) + [('0' as int + n % 10) as char];
      assert r[..|r| - 1] == Digits(n / 10);
      r
  }

  function Pow10(k: nat): nat {
    if k == 0 then 1 else 10 * Pow10(k - 1)
  }

  /** `n` has at most `k` digits exactly when it is below 10^k. */
  lemma {:induction false} DigitsLength(n: nat, k: nat)
    requires k >= 1
    ensures |Digits(n)| <= k <==> n < Pow10(k)
  {
    if n >= 10 && k > 1 {
      DigitsLength(n / 10, k - 1);
    } else if k > 1 {
      assert Pow10(k) == 10 * Pow10(k - 1);
      PowPositive(k - 1);
    }
  }

  lemma {:induction false} PowPositive(k: nat)
    ensures Pow10(k) >= 1
  {
    if k > 0 {
      PowPositive(k - 1);
    }
  }

  function Zeros(k: nat): (r: String)
    ensures |r| == k && AllDigits(r)
  {
    seq(k, _ => '0')
  }

  lemma {:induction false} LeadingZeros(k: nat, d: String)
    requires AllDigits(d)
    ensures AllDigits(Zeros(k) + d) && DigitsValue(Zeros(k) + d) == DigitsValue(d)
    decreases |d|, k
  {
    var s := Zeros(k) + d;
    assert AllDigits(s) by {
      forall i | 0 <= i < |s| ensures IsDigit(s[i]) {
        if i >= k { assert s[i] == d[i - k]; }
      }
    }
    if d == [] {
      assert s == Zeros(k);
      if k > 0 {
        assert Zeros(k)[..k - 1] == Zeros(k - 1);
        LeadingZeros(k - 1, []);
        assert Zeros(k - 1) + [] == Zeros(k - 1);
      }
    } else {
      assert s[..|s| - 1] == Zeros(k) + d[..|d| - 1];
      LeadingZeros(k, d[..|d| - 1]);
    }
  }

  /** Zero-padded formatting of `n`: its digits, left-padded with zeros to at least `width` characters. */
  function ZeroPad(n: nat, width: nat): (r: String)
    ensures AllDigits(r) && DigitsValue(r) == n
    ensures |r| == if |Digits(n)| >= width then |Digits(n)| else width
  {
    var d := Digits(n);
    if |d| >= width then d
    else
      LeadingZeros(width - |d|, d);
      Zeros(width - |d|) + d
  }

  /** The `format!` of the date: year padded to four digits, month and day to two, joined by `-`. */
  function FormatDate(year: nat, month: nat, day: nat): String {
    ZeroPad(year, 4) + "-" + ZeroPad(month, 2) + "-" + ZeroPad(day, 2)
  }

  /** A date the normaliser produced from its parts: a positive 32-bit year, a month 1..12, a day 1..31. */
  ghost predicate IsFormattedDate(r: String) {
    exists year: nat, month: nat, day: nat
      :: 0 < year <= I32_MAX && 1 <= month <= 12 && 1 <= day <= 31 && r == FormatDate(year, month, day)
  }

  /**
   * `parse_date_slashes`: splits on `/` if the input has one, otherwise on
   * `-`, and succeeds only with exactly three pieces.
   */
  function ParseDateSlashes(s: String): (r: Option<seq<String>>)
    ensures r.Some? <==> if '/' in s then Count(s, '/') == 2 else '-' in s && Count(s, '-') == 2
    ensures r.Some? ==> |r.value| == 3 && Join(r.value, if '/' in s then '/' else '-') == s
  {
    if '/' in s then
      var parts := Split(s, '/');
      JoinSplit(s, '/');
      if |parts| == 3 then Some(parts) else None
    else if '-' in s then
      var parts := Split(s, '-');
      JoinSplit(s, '-');
      if |parts| == 3 then Some(parts) else None
    else None
  }

  /** The MM/DD/YYYY reading: a first piece in 1..12 is the month. */
  function MonthFirst(s: String): (r: Option<String>)
    ensures r.Some? ==> IsFormattedDate(r.value)
  {
    match ParseDateSlashes(s)
    case None => None
    case Some(parts) =>
      if |parts| != 3 then None
      else
        var first := ParseU32(parts[0]).GetOr(0);
        if 1 <= first <= 12 then
          var day := ParseU32(parts[1]).GetOr(0);
          var year := ParseI32(parts[2]).GetOr(0);
          if 1 <= day <= 31 && year > 0 then Some(FormatDate(year, first, day)) else None
        else None
  }

  /** The DD/MM/YYYY reading: a second piece in 1..12 is the month. */
  function DayFirst(s: String): (r: Option<String>)
    ensures r.Some? ==> IsFormattedDate(r.value)
  {
    match ParseDateSlashes(s)
    case None => None
    case Some(parts) =>
      if |parts| != 3 then None
      else
        var second := ParseU32(parts[1]).GetOr(0);
        if 1 <= second <= 12 then
          var day := ParseU32(parts[0]).GetOr(0);
          var year := ParseI32(parts[2]).GetOr(0);
          if 1 <= day <= 31 && year > 0 then Some(FormatDate(year, second, day)) else None
        else None
  }

  /** The first ten characters, `[0..10]`, of a string that has them. */
  function FirstTen(s: String): (r: String)
    ensures |s| >= 10 ==> r == s[..10]
  {
    if |s| >= 10 then s[..10] else s
  }

  /** At least ten characters with `-` at offsets 4 and 7. */
  predicate LooksIso(s: String) {
    |s| >= 10 && s[4] == '-' && s[7] == '-'
  }

  /**
   * `normalize_date_format`: an ISO-looking input is cut to its first ten
   * characters; otherwise the MM/DD/YYYY reading, then the DD/MM/YYYY reading,
   * then the date part of an RFC 3339 timestamp; otherwise the input as given.
   */
  function NormalizeDateFormat(s: String): (r: String)
    ensures LooksIso(s) ==> r == s[..10]
    ensures !LooksIso(s) ==> r == s || IsFormattedDate(r) || (LooksIso(r) && |r| == 10)
  {
    if LooksIso(s) then s[..10]
    else if MonthFirst(s).Some? then MonthFirst(s).value
    else if DayFirst(s).Some? then DayFirst(s).value
    else if 'T' in s && ':' in s && LooksIso(BeforeFirst(s, 'T')) then FirstTen(BeforeFirst(s, 'T'))
    else s
  }

  /** A first piece that reads as a month wins: "01/02/2020" is the 2nd of January. */
  lemma NormalizeMonthFirst(s: String, month: nat, day: nat, year: int)
    requires !LooksIso(s)
    requires ParseDateSlashes(s).Some?
    requires ParseU32(ParseDateSlashes(s).value[0]) == Some(month) && 1 <= month <= 12
    requires ParseU32(ParseDateSlashes(s).value[1]) == Some(day) && 1 <= day <= 31
    requires ParseI32(ParseDateSlashes(s).value[2]) == Some(year) && year > 0
    ensures NormalizeDateFormat(s) == FormatDate(year, month, day)
  {
  }

  /** Otherwise a second piece that reads as a month is the month: "13/02/2020" is the 13th of February. */
  lemma NormalizeDayFirst(s: String, month: nat, day: nat, year: int)
    requires !LooksIso(s)
    requires ParseDateSlashes(s).Some?
    requires !(1 <= ParseU32(ParseDateSlashes(s).value[0]).GetOr(0) <= 12)
    requires ParseU32(ParseDateSlashes(s).value[1]) == Some(month) && 1 <= month <= 12
    requires ParseU32(ParseDateSlashes(s).value[0]) == Some(day) && 1 <= day <= 31
    requires ParseI32(ParseDateSlashes(s).value[2]) == Some(year) && year > 0
    ensures NormalizeDateFormat(s) == FormatDate(year, month, day)
  {
  }

  /**
   * The timestamp branch can never be taken: the date part before `T` is a
   * prefix of the input, so an ISO-looking date part makes the input itself
   * ISO-looking, and the first branch has already returned.
   */
  lemma TimestampBranchUnreachable(s: String)
    requires LooksIso(BeforeFirst(s, 'T'))
    ensures LooksIso(s) && NormalizeDateFormat(s) == FirstTen(BeforeFirst(s, 'T'))
  {
    var p := BeforeFirst(s, 'T');
    assert s[..|p|] == p;
    assert s[4] == p[4] && s[7] == p[7];
  }

  /** An input that is not ISO-looking and reads as no date comes back exactly as given. */
  lemma NormalizeUnreadable(s: String)
    requires !LooksIso(s) && MonthFirst(s).None? && DayFirst(s).None?
    ensures NormalizeDateFormat(s) == s
  {
    if 'T' in s && ':' in s && LooksIso(BeforeFirst(s, 'T')) {
      TimestampBranchUnreachable(s);
    }
  }

  /** Conversely, an input that is not ISO-looking changes only when it has a date reading. */
  lemma NormalizeChangedHasReading(s: String)
    requires !LooksIso(s) && NormalizeDateFormat(s) != s
    ensures MonthFirst(s).Some? || DayFirst(s).Some?
  {
    if 'T' in s && ':' in s && LooksIso(BeforeFirst(s, 'T')) {
      TimestampBranchUnreachable(s);
    }
  }

  lemma ParseU32Digits(r: String)
    requires AllDigits(r) && r != [] && DigitsValue(r) <= U32_MAX
    ensures ParseU32(r) == Some(DigitsValue(r))
  {
    assert IsDigit(r[0]);
  }

  lemma ParseI32Digits(r: String)
    requires AllDigits(r) && r != [] && DigitsValue(r) <= I32_MAX
    ensures ParseI32(r) == Some(DigitsValue(r))
  {
    assert IsDigit(r[0]);
  }

  /** Three digit runs joined by a non-digit separator split back into those runs, and hold nothing else. */
  lemma DigitRuns(a: String, b: String, c: String, sep: char)
    requires AllDigits(a) && AllDigits(b) && AllDigits(c) && !IsDigit(sep)
    ensures var s := a + [sep] + b + [sep] + c;
      && Split(s, sep) == [a, b, c]
      && s[|a|] == sep
      && (forall i :: 0 <= i < |s| ==> IsDigit(s[i]) || s[i] == sep)
  {
    var s := a + [sep] + b + [sep] + c;
    assert sep !in a && sep !in b && sep !in c by {
      assert forall i :: 0 <= i < |a| ==> IsDigit(a[i]);
      assert forall i :: 0 <= i < |b| ==> IsDigit(b[i]);
      assert forall i :: 0 <= i < |c| ==> IsDigit(c[i]);
    }
    assert Join([b, c], sep) == b + [sep] + c;
    assert [a, b, c][1..] == [b, c];
    assert Join([a, b, c], sep) == s;
    SplitJoin([a, b, c], sep);
    forall i | 0 <= i < |s| ensures IsDigit(s[i]) || s[i] == sep {
      if i < |a| {
        assert s[i] == a[i];
      } else if i == |a| {
      } else if i < |a| + 1 + |b| {
        assert s[i] == b[i - |a| - 1];
      } else if i == |a| + 1 + |b| {
      } else {
        assert s[i] == c[i - |a| - 2 - |b|];
      }
    }
  }

  /** With a year below 10000 the formatted date is exactly ten characters and looks like ISO. */
  lemma ShortYearLooksIso(year: nat, month: nat, day: nat)
    requires year < 10_000 && month < 100 && day < 100
    ensures LooksIso(FormatDate(year, month, day)) && |FormatDate(year, month, day)| == 10
  {
    DigitsLength(year, 4);
    DigitsLength(month, 2);
    DigitsLength(day, 2);
    var y, m, d := ZeroPad(year, 4), ZeroPad(month, 2), ZeroPad(day, 2);
    assert FormatDate(year, month, day) == y + "-" + m + "-" + d;
  }

  /** A formatted date with a year of five or more digits no longer looks like ISO, and reads as nothing. */
  lemma LongYearUnreadable(year: nat, month: nat, day: nat)
    requires 10_000 <= year <= I32_MAX && 1 <= month <= 12 && 1 <= day <= 31
    ensures var r := FormatDate(year, month, day);
      !LooksIso(r) && MonthFirst(r).None? && DayFirst(r).None?
  {
    var y, m := ZeroPad(year, 4), ZeroPad(month, 2);
    var r := FormatDate(year, month, day);
    FormattedPieces(year, month, day);
    DigitsLength(year, 4);
    assert r[4] == y[4];
    ParseU32Digits(y);
    ParseU32Digits(m);
  }

  /** Such a date is therefore returned unchanged. */
  lemma LongYearIsKept(year: nat, month: nat, day: nat)
    requires 10_000 <= year <= I32_MAX && 1 <= month <= 12 && 1 <= day <= 31
    ensures NormalizeDateFormat(FormatDate(year, month, day)) == FormatDate(year, month, day)
  {
    LongYearUnreadable(year, month, day);
    NormalizeUnreadable(FormatDate(year, month, day));
  }

  /** A formatted date splits on `-` into its three padded fields, and holds no `/` and no `T`. */
  lemma FormattedPieces(year: nat, month: nat, day: nat)
    ensures var r := FormatDate(year, month, day);
      && ParseDateSlashes(r) == Some([ZeroPad(year, 4), ZeroPad(month, 2), ZeroPad(day, 2)])
      && '/' !in r && 'T' !in r
  {
    var y, m, d := ZeroPad(year, 4), ZeroPad(month, 2), ZeroPad(day, 2);
    var r := FormatDate(year, month, day);
    assert r == y + ['-'] + m + ['-'] + d;
    DigitRuns(y, m, d, '-');
    assert '/' !in r by {
      assert forall i :: 0 <= i < |r| ==> r[i] != '/';
    }
  }

  /** Normalising twice is the same as normalising once. */
  lemma NormalizeIdempotent(s: String)
    ensures NormalizeDateFormat(NormalizeDateFormat(s)) == NormalizeDateFormat(s)
  {
    var r := NormalizeDateFormat(s);
    if LooksIso(r) && |r| == 10 {
      assert r[..10] == r;
    } else if r != s && !LooksIso(s) {
      var year: nat, month: nat, day: nat :|
        0 < year <= I32_MAX && 1 <= month <= 12 && 1 <= day <= 31 && r == FormatDate(year, month, day);
      if year < 10_000 {
        ShortYearLooksIso(year, month, day);
      } else {
        LongYearIsKept(year, month, day);
      }
    }
  }
  /** A slash-separated date of three digit runs is split into exactly those three runs. */
  lemma SlashedParts(a: String, b: String, c: String)
    requires AllDigits(a) && AllDigits(b) && AllDigits(c)
    ensures ParseDateSlashes(a + "/" + b + "/" + c) == Some([a, b, c])
  {
    DigitRuns(a, b, c, '/');
  }

  /** MM/DD/YYYY with a month in 1..12 and a day in 1..31 becomes YYYY-MM-DD. */
  lemma NormalizeUsDate(month: nat, day: nat, year: nat)
    requires 1 <= month <= 12 && 1 <= day <= 31 && 0 < year <= I32_MAX
    ensures NormalizeDateFormat(ZeroPad(month, 2) + "/" + ZeroPad(day, 2) + "/" + ZeroPad(year, 4))
      == FormatDate(year, month, day)
  {
    var a, b, c := ZeroPad(month, 2), ZeroPad(day, 2), ZeroPad(year, 4);
    var s := a + "/" + b + "/" + c;
    DigitsLength(month, 2);
    DigitsLength(day, 2);
    assert s[4] == b[1];
    SlashedParts(a, b, c);
    ParseU32Digits(a);
    ParseU32Digits(b);
    ParseI32Digits(c);
    NormalizeMonthFirst(s, month, day, year);
  }

  /** DD/MM/YYYY with a day in 13..31, which cannot be a month, and a month in 1..12 becomes YYYY-MM-DD. */
  lemma NormalizeEuropeanDate(day: nat, month: nat, year: nat)
    requires 13 <= day <= 31 && 1 <= month <= 12 && 0 < year <= I32_MAX
    ensures NormalizeDateFormat(ZeroPad(day, 2) + "/" + ZeroPad(month, 2) + "/" + ZeroPad(year, 4))
      == FormatDate(year, month, day)
  {
    var a, b, c := ZeroPad(day, 2), ZeroPad(month, 2), ZeroPad(year, 4);
    var s := a + "/" + b + "/" + c;
    DigitsLength(month, 2);
    DigitsLength(day, 2);
    assert s[4] == b[1];
    SlashedParts(a, b, c);
    ParseU32Digits(a);
    ParseU32Digits(b);
    ParseI32Digits(c);
    NormalizeDayFirst(s, month, day, year);
  }

  /** The padded pieces the examples below are made of. */
  lemma PaddedLiterals()
    ensures ZeroPad(1, 2) == "01" && ZeroPad(2, 2) == "02" && ZeroPad(13, 2) == "13"
    ensures ZeroPad(31, 2) == "31" && ZeroPad(2020, 4) == "2020"
  {
    PadTwo(1);
    PadTwo(2);
    PadTwo(13);
    PadTwo(31);
    assert Digits(2020) == Digits(202) + ['0'];
    assert Digits(202) == Digits(20) + ['2'];
    assert Digits(20) == Digits(2) + ['0'];
  }

  /** A number below 100 padded to two places is its tens digit and its units digit. */
  lemma PadTwo(n: nat)
    requires n < 100
    ensures ZeroPad(n, 2) == [('0' as int + n / 10) as char, ('0' as int + n % 10) as char]
  {
    if n >= 10 {
      assert Digits(n) == Digits(n / 10) + [('0' as int + n % 10) as char];
    }
  }

  /** The dates the examples below come out as. */
  lemma FormattedLiterals()
    ensures FormatDate(2020, 1, 2) == "2020-01-02" && FormatDate(2020, 2, 13) == "2020-02-13"
    ensures FormatDate(2020, 2, 31) == "2020-02-31"
  {
    PaddedLiterals();
  }

  /** "01/02/2020": the first piece reads as a month, so it is the 2nd of January. */
  lemma MonthFirstExample()
    ensures NormalizeDateFormat("01/02/2020") == "2020-01-02"
  {
    PaddedLiterals();
    FormattedLiterals();
    assert "01" + "/" + "02" + "/" + "2020" == "01/02/2020";
    NormalizeUsDate(1, 2, 2020);
  }

  /** "13/02/2020": 13 is no month, so the second piece is: the 13th of February. */
  lemma DayFirstExample()
    ensures NormalizeDateFormat("13/02/2020") == "2020-02-13"
  {
    PaddedLiterals();
    FormattedLiterals();
    assert "13" + "/" + "02" + "/" + "2020" == "13/02/2020";
    NormalizeEuropeanDate(13, 2, 2020);
  }

  /** "31/02/2020": the day is only checked against 1..31, so a 31st of February comes out. */
  lemma NoCalendarCheckExample()
    ensures NormalizeDateFormat("31/02/2020") == "2020-02-31"
  {
    PaddedLiterals();
    FormattedLiterals();
    assert "31" + "/" + "02" + "/" + "2020" == "31/02/2020";
    NormalizeEuropeanDate(31, 2, 2020);
  }
}
