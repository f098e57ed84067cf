/** Calendar arithmetic in the proleptic Gregorian calendar, as Python's `datetime`
    does it: a date is identified by its ordinal (0001-01-01 is day 1, 9999-12-31 the
    last representable day), `strptime(s, "%Y-%m-%d")` reads one, `strftime("%Y-%m-%d")`
    writes one, and adding a `timedelta` past the last day raises `OverflowError`. */
module Calendar {
  import opened Wrappers

  const MaxYear: int := 9999
  /** The ordinal of 9999-12-31. */
  const MaxOrdinal: int := 3652059
  /** Microseconds in one day, the resolution of `datetime.now()`. */
  const DayMicros: int := 86_400_000_000

  /** The exception `datetime` raises when a result falls outside years 1..9999. */
  datatype Error = OverflowError

  datatype Date = Date(year: int, month: int, day: int)

  predicate IsLeap(year: int) {
    year % 4 == 0 && (year % 100 != 0 || year % 400 == 0)
  }

  function DaysInYear(year: int): int {
    if IsLeap(year) then 366 else 365
  }

  function DaysInMonth(year: int, month: int): int
    requires 1 <= month <= 12
  {
    if month == 2 then (if IsLeap(year) then 29 else 28)
    else if month == 4 || month == 6 || month == 9 || month == 11 then 30
    else 31
  }

  /** Days in all the years before `year`. */
  function DaysBeforeYear(year: int): int
    requires year >= 1
  {
    var y := year - 1;
    y * 365 + y / 4 - y / 100 + y / 400
  }

  /** Days in `year` before the first of `month`. */
  function DaysBeforeMonth(year: int, month: int): int
    requires 1 <= month <= 12
  {
    [0, 0, 31, 59, 90, 120, 151, 181, 212, 243, 273, 304, 334][month]
      + (if month > 2 && IsLeap(year) then 1 else 0)
  }

  predicate ValidDate(d: Date) {
    1 <= d.year <= MaxYear && 1 <= d.month <= 12 && 1 <= d.day <= DaysInMonth(d.year, d.month)
  }

  predicate ValidOrdinal(n: int) {
    1 <= n <= MaxOrdinal
  }

  // ---------------------------------------------------------------------------
  // Facts about the day counts
  // ---------------------------------------------------------------------------

  /** One more year adds that year's length. */
  lemma YearStep(year: int)
    requires year >= 1
    ensures DaysBeforeYear(year + 1) == DaysBeforeYear(year) + DaysInYear(year)
  {
    var y := year - 1;
    assert (y + 1) / 4 == y / 4 + (if year % 4 == 0 then 1 else 0);
    assert (y + 1) / 100 == y / 100 + (if year % 100 == 0 then 1 else 0);
    assert (y + 1) / 400 == y / 400 + (if year % 400 == 0 then 1 else 0);
  }

  /** Every year has at least 365 days, so the year starts grow at least that fast. */
  lemma {:induction false} YearsGrow(a: int, b: int)
    requires 1 <= a <= b
    ensures DaysBeforeYear(a) + (b - a) * 365 <= DaysBeforeYear(b)
    decreases b - a
  {
    if a < b {
      YearStep(a);
      YearsGrow(a + 1, b);
    }
  }

  lemma LastYearEnd()
    ensures DaysBeforeYear(MaxYear) + DaysInYear(MaxYear) == MaxOrdinal
  {
    YearStep(MaxYear);
  }

  /** Every representable year ends no later than the last representable day. */
  lemma YearWithinRange(year: int)
    requires 1 <= year <= MaxYear
    ensures DaysBeforeYear(year) + DaysInYear(year) <= MaxOrdinal
  {
    YearStep(year);
    if year < MaxYear {
      YearsGrow(year + 1, MaxYear);
    }
    LastYearEnd();
  }

  /** One more month adds that month's length. */
  lemma MonthStep(year: int, month: int)
    requires 1 <= month < 12
    ensures DaysBeforeMonth(year, month + 1) == DaysBeforeMonth(year, month) + DaysInMonth(year, month)
  {
  }

  lemma {:induction false} MonthsGrow(year: int, a: int, b: int)
    requires 1 <= a <= b <= 12
    ensures DaysBeforeMonth(year, a) + (b - a) * 28 <= DaysBeforeMonth(year, b)
    decreases b - a
  {
    if a < b {
      MonthStep(year, a);
      MonthsGrow(year, a + 1, b);
    }
  }

  /** A month ends no later than its year. */
  lemma MonthInYear(year: int, month: int)
    requires 1 <= month <= 12
    ensures DaysBeforeMonth(year, month) + DaysInMonth(year, month) <= DaysInYear(year)
  {
    if month < 12 {
      MonthStep(year, month);
      MonthsGrow(year, month + 1, 12);
    }
  }

  // ---------------------------------------------------------------------------
  // Ordinals
  // ---------------------------------------------------------------------------

  /** `date.toordinal()`. */
  function ToOrdinal(d: Date): (n: int)
    requires ValidDate(d)
    ensures ValidOrdinal(n)
    ensures DaysBeforeYear(d.year) < n <= DaysBeforeYear(d.year) + DaysInYear(d.year)
  {
    MonthInYear(d.year, d.month);
    YearWithinRange(d.year);
    DaysBeforeYear(d.year) + DaysBeforeMonth(d.year, d.month) + d.day
  }

  /** The year, at or after `year`, that holds day `n`. */
  function YearFrom(n: int, year: int): (r: int)
    requires 1 <= year <= MaxYear && DaysBeforeYear(year) < n <= MaxOrdinal
    ensures year <= r <= MaxYear
    ensures DaysBeforeYear(r) < n <= DaysBeforeYear(r) + DaysInYear(r)
    decreases MaxYear - year
  {
    YearStep(year);
    LastYearEnd();
    if n <= DaysBeforeYear(year) + DaysInYear(year) then year else YearFrom(n, year + 1)
  }

  /** The month, at or after `month`, that holds day `k` of `year`. */
  function MonthFrom(year: int, k: int, month: int): (r: int)
    requires 1 <= month <= 12 && DaysBeforeMonth(year, month) < k <= DaysInYear(year)
    ensures month <= r <= 12
    ensures DaysBeforeMonth(year, r) < k <= DaysBeforeMonth(year, r) + DaysInMonth(year, r)
    decreases 12 - month
  {
    if month == 12 || k <= DaysBeforeMonth(year, month) + DaysInMonth(year, month) then
      month
    else
      MonthStep(year, month);
      MonthFrom(year, k, month + 1)
  }

  /** `date.fromordinal(n)`. */
  function FromOrdinal(n: int): (d: Date)
    requires ValidOrdinal(n)
    ensures ValidDate(d) && ToOrdinal(d) == n
  {
    var year := YearFrom(n, 1);
    var k := n - DaysBeforeYear(year);
    var month := MonthFrom(year, k, 1);
    Date(year, month, k - DaysBeforeMonth(year, month))
  }

  lemma {:induction false} YearFromFinds(n: int, year: int, y: int)
    requires 1 <= year <= y <= MaxYear && DaysBeforeYear(year) < n <= MaxOrdinal
    requires DaysBeforeYear(y) < n <= DaysBeforeYear(y) + DaysInYear(y)
    ensures YearFrom(n, year) == y
    decreases y - year
  {
    YearStep(year);
    if year < y {
      YearsGrow(year + 1, y);
      YearFromFinds(n, year + 1, y);
    }
  }

  lemma {:induction false} MonthFromFinds(year: int, k: int, month: int, m: int)
    requires 1 <= month <= m <= 12 && DaysBeforeMonth(year, month) < k <= DaysInYear(year)
    requires DaysBeforeMonth(year, m) < k <= DaysBeforeMonth(year, m) + DaysInMonth(year, m)
    ensures MonthFrom(year, k, month) == m
    decreases m - month
  {
    if month < m {
      MonthStep(year, month);
      MonthsGrow(year, month + 1, m);
      MonthFromFinds(year, k, month + 1, m);
    }
  }

  /** Ordinals and valid dates are in one-to-one correspondence. */
  lemma OrdinalRoundTrip(d: Date)
    requires ValidDate(d)
    ensures FromOrdinal(ToOrdinal(d)) == d
  {
    YearOfOrdinal(d);
    MonthOfOrdinal(d);
  }

  lemma YearOfOrdinal(d: Date)
    requires ValidDate(d)
    ensures YearFrom(ToOrdinal(d), 1) == d.year
  {
    YearFromFinds(ToOrdinal(d), 1, d.year);
  }

  lemma MonthOfOrdinal(d: Date)
    requires ValidDate(d)
    ensures ToOrdinal(d) - DaysBeforeYear(d.year) == DaysBeforeMonth(d.year, d.month) + d.day
    ensures MonthFrom(d.year, ToOrdinal(d) - DaysBeforeYear(d.year), 1) == d.month
  {
    MonthInYear(d.year, d.month);
    MonthFromFinds(d.year, DaysBeforeMonth(d.year, d.month) + d.day, 1, d.month);
  }

  /** `date + timedelta(days=k)`. */
  function AddDays(n: int, k: int): (r: Result<int, Error>)
    requires ValidOrdinal(n)
    ensures r.Ok? <==> ValidOrdinal(n + k)
    ensures r.Ok? ==> r.value == n + k
  {
    if ValidOrdinal(n + k) then Ok(n + k) else Err(OverflowError)
  }

  // ---------------------------------------------------------------------------
  // The clock
  // ---------------------------------------------------------------------------

  /** A reading of `datetime.now()`: today's ordinal and the microseconds since midnight. */
  datatype Clock = Clock(day: int, micros: int)

  predicate ValidClock(now: Clock) {
    ValidOrdinal(now.day) && 0 <= now.micros < DayMicros
  }

  /** `(start - now).days` for the midnight of day `start`: the whole days in the
      difference, rounded down, so a start later today counts as -1 unless it is midnight now. */
  function DaysUntil(start: int, now: Clock): (days: int)
    requires ValidClock(now)
    ensures days == start - now.day - (if now.micros == 0 then 0 else 1)
  {
    var diff := start - now.day;
    assert diff * DayMicros - now.micros
      == (diff - (if now.micros == 0 then 0 else 1)) * DayMicros
        + (if now.micros == 0 then 0 else DayMicros - now.micros);
    (diff * DayMicros - now.micros) / DayMicros
  }

  // ---------------------------------------------------------------------------
  // Reading and writing "%Y-%m-%d"
  // ---------------------------------------------------------------------------

  predicate IsDigit(c: char) {
    '0' <= c <= '9'
  }

  function DigitValue(c: char): (v: int)
    requires IsDigit(c)
    ensures 0 <= v <= 9
  {
    c as int - '0' as int
  }

  function DigitChar(v: int): (c: char)
    requires 0 <= v <= 9
    ensures IsDigit(c) && DigitValue(c) == v
  {
    ('0' as int + v) as char
  }

  /** `%Y`: exactly four digits. */
  function YearField(s: string): (r: Option<int>)
    ensures r.Some? ==> 0 <= r.value <= MaxYear
  {
    if |s| == 4 && IsDigit(s[0]) && IsDigit(s[1]) && IsDigit(s[2]) && IsDigit(s[3]) then
      Some(1000 * DigitValue(s[0]) + 100 * DigitValue(s[1]) + 10 * DigitValue(s[2]) + DigitValue(s[3]))
    else
      None
  }

  /** `%m`: one of the forms `10`..`12`, `01`..`09` or `1`..`9`. */
  function MonthField(s: string): (r: Option<int>)
    ensures r.Some? ==> 1 <= r.value <= 12
  {
    if |s| == 1 && '1' <= s[0] <= '9' then Some(DigitValue(s[0]))
    else if |s| == 2 && s[0] == '1' && '0' <= s[1] <= '2' then Some(10 + DigitValue(s[1]))
    else if |s| == 2 && s[0] == '0' && '1' <= s[1] <= '9' then Some(DigitValue(s[1]))
    else None
  }

  /** `%d`: one of the forms `30`, `31`, `10`..`29`, `01`..`09`, `1`..`9` or a space and `1`..`9`. */
  function DayField(s: string): (r: Option<int>)
    ensures r.Some? ==> 1 <= r.value <= 31
  {
    if |s| == 1 && '1' <= s[0] <= '9' then Some(DigitValue(s[0]))
    else if |s| == 2 && s[0] == '3' && (s[1] == '0' || s[1] == '1') then Some(30 + DigitValue(s[1]))
    else if |s| == 2 && (s[0] == '1' || s[0] == '2') && IsDigit(s[1]) then Some(10 * DigitValue(s[0]) + DigitValue(s[1]))
    else if |s| == 2 && (s[0] == '0' || s[0] == ' ') && '1' <= s[1] <= '9' then Some(DigitValue(s[1]))
    else None
  }

  /** `datetime.strptime(text, "%Y-%m-%d")` inside a `try` that turns every failure,
      `None` included, into `None`; a success is the ordinal of the date read. The text
      must be matched to its very end, and the date must exist (year 0 does not). */
  function Parse(text: Option<string>): (r: Option<int>)
    ensures r.Some? ==> ValidOrdinal(r.value)
    ensures text == None ==> r == None
  {
    match text
    case None => None
    case Some(s) =>
      if |s| < 5 || s[4] != '-' then None
      else
        var rest := s[5..];
        var cut := if |rest| >= 2 && rest[1] == '-' then 1
                   else if |rest| >= 3 && rest[2] == '-' then 2
                   else 0;
        if cut == 0 then None
        else
          match (YearField(s[..4]), MonthField(rest[..cut]), DayField(rest[cut + 1..]))
          case (Some(y), Some(m), Some(d)) =>
            if ValidDate(Date(y, m, d)) then Some(ToOrdinal(Date(y, m, d))) else None
          case _ => None
  }

  function Pad2(v: int): (s: string)
    requires 0 <= v <= 99
    ensures |s| == 2 && IsDigit(s[0]) && IsDigit(s[1])
    ensures 10 * DigitValue(s[0]) + DigitValue(s[1]) == v
  {
    [DigitChar(v / 10), DigitChar(v % 10)]
  }

  lemma DivModHundred(v: int, q: int, r: int)
    requires v == 100 * q + r && 0 <= r < 100
    ensures v / 100 == q && v % 100 == r
  {
  }

  lemma DivModTen(v: int, q: int, r: int)
    requires v == 10 * q + r && 0 <= r < 10
    ensures v / 10 == q && v % 10 == r
  {
  }

  /** The four decimal digits of a number below 10000 add back up to it. */
  lemma FourDigits(v: int)
    requires 0 <= v <= 9999
    ensures 1000 * (v / 1000) + 100 * (v / 100 % 10) + 10 * (v / 10 % 10) + v % 10 == v
  {
    var a, r1 := v / 1000, v % 1000;
    var b, r2 := r1 / 100, r1 % 100;
    var c, d := r2 / 10, r2 % 10;
    DivModHundred(v, 10 * a + b, r2);
    DivModTen(10 * a + b, a, b);
    DivModTen(v, 100 * a + 10 * b + c, d);
    DivModTen(100 * a + 10 * b + c, 10 * a + b, c);
  }

  function Pad4(v: int): (s: string)
    requires 0 <= v <= 9999
    ensures YearField(s) == Some(v)
  {
    FourDigits(v);
    [DigitChar(v / 1000), DigitChar(v / 100 % 10), DigitChar(v / 10 % 10), DigitChar(v % 10)]
  }

  /** `strftime("%Y-%m-%d")` of day `n`, with the year written in four digits. */
  function Format(n: int): (s: string)
    requires ValidOrdinal(n)
    ensures |s| == 10 && s[4] == '-' && s[7] == '-'
    ensures YearField(s[..4]) == Some(FromOrdinal(n).year)
  {
    var d := FromOrdinal(n);
    Pad4(d.year) + "-" + Pad2(d.month) + "-" + Pad2(d.day)
  }

  lemma MonthFieldPad2(m: int)
    requires 1 <= m <= 12
    ensures MonthField(Pad2(m)) == Some(m)
  {
  }

  lemma DayFieldPad2(d: int)
    requires 1 <= d <= 31
    ensures DayField(Pad2(d)) == Some(d)
  {
  }

  /** Whatever spelling of the month and day fields `%m` and `%d` accept, the text reads
      as the date those fields name, or as nothing when that date does not exist. */
  lemma ParseFields(y: int, ms: string, ds: string)
    requires 0 <= y <= MaxYear && MonthField(ms).Some? && DayField(ds).Some?
    ensures var date := Date(y, MonthField(ms).value, DayField(ds).value);
      Parse(Some(Pad4(y) + "-" + ms + "-" + ds)) == if ValidDate(date) then Some(ToOrdinal(date)) else None
  {
    var s := Pad4(y) + "-" + ms + "-" + ds;
    var rest := s[5..];
    assert s[..4] == Pad4(y);
    assert rest == ms + "-" + ds;
    if |ms| == 1 {
      assert rest[1] == '-';
      assert rest[..1] == ms && rest[2..] == ds;
    } else {
      assert rest[1] == ms[1] && rest[2] == '-';
      assert rest[..2] == ms && rest[3..] == ds;
    }
  }

  /** Conversely, only those spellings read as a day: a four-digit year, a dash, a month
      field, a dash and a day field, with nothing before or after. Text with surrounding
      whitespace or other separators reads as nothing. */
  lemma ParseOnlySpellings(s: string)
    requires Parse(Some(s)).Some?
    ensures exists ms: string, ds: string ::
              (|s| >= 5 && YearField(s[..4]).Some? &&
               s == s[..4] + "-" + ms + "-" + ds && MonthField(ms).Some? && DayField(ds).Some?)
  {
    var rest := s[5..];
    var cut := if |rest| >= 2 && rest[1] == '-' then 1 else 2;
    assert |rest| > cut && rest[cut] == '-';
    var ms, ds := rest[..cut], rest[cut + 1..];
    assert YearField(s[..4]).Some? && MonthField(ms).Some? && DayField(ds).Some?;
    DashSplit(s, cut);
  }

  /** A text with dashes at position 4 and `5 + cut` is its year, a dash, the part
      before the second dash, a dash and the rest. */
  lemma DashSplit(s: string, cut: nat)
    requires 5 + cut < |s| && s[4] == '-' && s[5 + cut] == '-'
    ensures s == s[..4] + "-" + s[5..][..cut] + "-" + s[5..][cut + 1..]
  {
    var rest := s[5..];
    assert rest == rest[..cut] + "-" + rest[cut + 1..];
    assert s == s[..4] + "-" + rest;
  }

  /** The zero-padded text of a valid date is read back as that date. */
  lemma ParsePadded(d: Date)
    requires ValidDate(d)
    ensures Parse(Some(Pad4(d.year) + "-" + Pad2(d.month) + "-" + Pad2(d.day))) == Some(ToOrdinal(d))
  {
    MonthFieldPad2(d.month);
    DayFieldPad2(d.day);
    ParseFields(d.year, Pad2(d.month), Pad2(d.day));
  }

  /** Well-formed fields naming a day that does not exist, such as 2023-02-29, a 31st of
      a 30-day month or any day of year 0, read as nothing. */
  lemma ParseRejectsImpossible(y: int, m: int, d: int)
    requires 0 <= y <= MaxYear && 1 <= m <= 12 && 1 <= d <= 31 && !ValidDate(Date(y, m, d))
    ensures Parse(Some(Pad4(y) + "-" + Pad2(m) + "-" + Pad2(d))) == None
  {
    MonthFieldPad2(m);
    DayFieldPad2(d);
    ParseFields(y, Pad2(m), Pad2(d));
  }

  /** A month or day below 10 may be written with one digit, and a day below 10 also
      after a space: "2024-1-5", "2024-01-5" and "2024-1- 5" read as "2024-01-05" does. */
  lemma ParseShortFields(y: int, m: int, d: int)
    requires 0 <= y <= MaxYear && 1 <= m <= 9 && 1 <= d <= 9
    ensures var padded := Parse(Some(Pad4(y) + "-" + Pad2(m) + "-" + Pad2(d)));
      && Parse(Some(Pad4(y) + "-" + [DigitChar(m)] + "-" + [DigitChar(d)])) == padded
      && Parse(Some(Pad4(y) + "-" + Pad2(m) + "-" + [DigitChar(d)])) == padded
      && Parse(Some(Pad4(y) + "-" + [DigitChar(m)] + "-" + Pad2(d))) == padded
      && Parse(Some(Pad4(y) + "-" + [DigitChar(m)] + "-" + [' ', DigitChar(d)])) == padded
      && Parse(Some(Pad4(y) + "-" + Pad2(m) + "-" + [' ', DigitChar(d)])) == padded
  {
    MonthFieldPad2(m);
    DayFieldPad2(d);
    ParseFields(y, Pad2(m), Pad2(d));
    ParseFields(y, [DigitChar(m)], [DigitChar(d)]);
    ParseFields(y, Pad2(m), [DigitChar(d)]);
    ParseFields(y, [DigitChar(m)], Pad2(d));
    ParseFields(y, [DigitChar(m)], [' ', DigitChar(d)]);
    ParseFields(y, Pad2(m), [' ', DigitChar(d)]);
  }

  /** Reading back what was written gives the same day. */
  lemma ParseFormat(n: int)
    requires ValidOrdinal(n)
    ensures Parse(Some(Format(n))) == Some(n)
  {
    ParsePadded(FromOrdinal(n));
  }

  /** Writing a valid date's ordinal gives its zero-padded text, the text `ParsePadded` reads. */
  lemma FormatPadded(d: Date)
    requires ValidDate(d)
    ensures Format(ToOrdinal(d)) == Pad4(d.year) + "-" + Pad2(d.month) + "-" + Pad2(d.day)
  {
    OrdinalRoundTrip(d);
  }
}
