/** The dashboard's period selector: which stored dates belong to the current period,
    and which closed interval of keys is the comparable previous period
    (`getDataAtual`, `getPrimeiroDiaSemana/Mes/Ano`, `getPeriodoAnterior` and the
    `transacoesFiltradas` predicate of src/pages/Dashboard.tsx). */
module Periods {
  import opened Wrappers
  import opened Calendar
  import opened DateKeys

  /** The selector's string value, parsed. Only the five spellings the two `switch`
      statements test are recognised; anything else takes their `default` branches. */
  datatype Period = Dia | Semana | Mes | Ano | Personalizado | Unrecognised(tag: string)

  function ParsePeriod(tag: string): (p: Period)
    ensures p.Unrecognised? <==> tag != "dia" && tag != "semana" && tag != "mes" && tag != "ano" && tag != "personalizado"
    ensures p.Unrecognised? ==> p.tag == tag
  {
    if tag == "dia" then Dia
    else if tag == "semana" then Semana
    else if tag == "mes" then Mes
    else if tag == "ano" then Ano
    else if tag == "personalizado" then Personalizado
    else Unrecognised(tag)
  }

  /** The values of the four period tabs, in display order; the third is also the
      selector's initial state. */
  const TabValues: seq<string> := ["dia", "semana", "mês", "ano"]
  const InitialTab: string := "mês"

  /** The Month tab (and so the initial state) is spelled with an accent, which no `case`
      matches: the dashboard starts, and stays on that tab, in the `default` branches. */
  lemma MonthTabIsUnrecognised()
    ensures InitialTab == TabValues[2]
    ensures ParsePeriod(InitialTab) == Unrecognised("mês")
    ensures ParsePeriod(TabValues[0]) == Dia && ParsePeriod(TabValues[1]) == Semana && ParsePeriod(TabValues[3]) == Ano
  {
    assert "mês" != "mes" by { assert "mês"[1] != "mes"[1]; }
  }

  /** A custom range chosen in the date dialog (both ends are set before it is applied). */
  datatype CustomRange = CustomRange(inicio: Date, fim: Date)

  predicate ValidCustom(custom: Option<CustomRange>) {
    custom.Some? ==> Valid(custom.value.inicio) && Valid(custom.value.fim)
  }

  // ---------------------------------------------------------------------------
  // Current-period boundaries
  // ---------------------------------------------------------------------------

  /** `getDataAtual()`. */
  function TodayKey(now: Date): string
    requires Valid(now)
  {
    Key(now)
  }

  /** `getPrimeiroDiaSemana()`. */
  function WeekStartKey(now: Date): string
    requires Valid(now)
  {
    Key(StartOfWeek(now))
  }

  /** `getPrimeiroDiaMes()`, built directly as text. */
  function MonthStartKey(now: Date): (k: string)
    requires Valid(now)
    ensures k == Key(Date(now.year, now.month, 1))
  {
    YearText(now.year) + "-" + Pad2(now.month) + "-01"
  }

  /** `getPrimeiroDiaAno()`, built directly as text. */
  function YearStartKey(now: Date): (k: string)
    requires Valid(now)
    ensures k == Key(Date(now.year, 1, 1))
  {
    YearText(now.year) + "-01-01"
  }

  /** Whether a transaction's date part `dt` passes the current-period filter. The
      comparisons are JavaScript string comparisons. */
  predicate InCurrentPeriod(p: Period, now: Date, custom: Option<CustomRange>, dt: string)
    requires Valid(now) && ValidCustom(custom)
  {
    match p
    case Dia => dt == TodayKey(now)
    case Semana => !StrLess(dt, WeekStartKey(now))
    case Mes => !StrLess(dt, MonthStartKey(now))
    case Ano => !StrLess(dt, YearStartKey(now))
    case Personalizado =>
      custom.Some? && !StrLess(dt, Key(custom.value.inicio)) && !StrLess(Key(custom.value.fim), dt)
    case Unrecognised(_) => true
  }

  // ---------------------------------------------------------------------------
  // Previous period
  // ---------------------------------------------------------------------------

  /** A closed interval of date keys, `{ inicio, fim }`. */
  datatype Interval = Interval(inicio: string, fim: string)

  /** `dt >= inicio && dt <= fim` on strings. */
  predicate InInterval(iv: Interval, dt: string) {
    !StrLess(dt, iv.inicio) && !StrLess(iv.fim, dt)
  }

  function KeyInterval(a: Date, b: Date): Interval
    requires Valid(a) && Valid(b)
  {
    Interval(Key(a), Key(b))
  }

  /** The month before `now`'s, as (year, 1-based month): January wraps to December of the
      previous year. */
  function PrecedingMonth(now: Date): (ym: (int, int))
    requires Valid(now)
    ensures 1 <= ym.1 <= 12
  {
    var mesAnterior := (now.month - 1) - 1;
    if mesAnterior < 0 then (now.year - 1, 12) else (now.year, mesAnterior + 1)
  }

  /** `getPeriodoAnterior()`. */
  function PreviousInterval(p: Period, now: Date, custom: Option<CustomRange>): Interval
    requires Valid(now) && ValidCustom(custom)
  {
    match p
    case Dia =>
      var ontem := AddDays(now, -1);
      KeyInterval(ontem, ontem)
    case Semana =>
      var inicioSemanaAtual := StartOfWeek(now);
      KeyInterval(AddDays(inicioSemanaAtual, -7), AddDays(inicioSemanaAtual, -1))
    case Mes =>
      var mesAtual := now.month - 1;
      var mesAnterior := if mesAtual - 1 < 0 then 11 else mesAtual - 1;
      var anoAnterior := if mesAtual - 1 < 0 then now.year - 1 else now.year;
      KeyInterval(JsDate(anoAnterior, mesAnterior, 1), JsDate(anoAnterior, mesAnterior + 1, 0))
    case Ano =>
      var anoAnterior := now.year - 1;
      Interval(YearText(anoAnterior) + "-01-01", YearText(anoAnterior) + "-12-31")
    case Personalizado =>
      if custom.Some? then
        var e := CustomPreviousEnds(custom.value);
        KeyInterval(e.0, e.1)
      else Interval("", "")
    case Unrecognised(_) => Interval("", "")
  }

  /** The ends of the custom branch of `getPeriodoAnterior()`: as many days as the range
      spans, ending the day before it starts. */
  function CustomPreviousEnds(c: CustomRange): (e: (Date, Date))
    requires Valid(c.inicio) && Valid(c.fim)
    ensures Valid(e.0) && Valid(e.1)
    ensures DayNumber(e.1) == DayNumber(c.inicio) - 1
    ensures DayNumber(e.1) - DayNumber(e.0) == DayNumber(c.fim) - DayNumber(c.inicio)
  {
    var duracao := DayNumber(c.fim) - DayNumber(c.inicio);
    var novoFim := AddDays(c.inicio, -1);
    var novoInicio := AddDays(novoFim, -duracao);
    (novoInicio, novoFim)
  }

  // ---------------------------------------------------------------------------
  // What the current-period filter keeps
  // ---------------------------------------------------------------------------

  /** Dates at most a year (365 days) before a date of year 1001..9999 still have four-digit years. */
  lemma StaysFourDigit(a: Date, b: Date)
    requires KeyDate(a) && a.year >= 1001 && Valid(b)
    requires DayNumber(a) - 365 <= DayNumber(b) <= DayNumber(a)
    ensures KeyDate(b)
  {
    if b.year > a.year {
      DayNumberOrder(a, b);
    }
    if b.year < 1000 {
      var first := Date(1000, 1, 1);
      var next := Date(1001, 1, 1);
      DayNumberOrder(b, first);
      DayNumberOrder(next, a);
    }
  }

  /** Day: only today's date is kept. */
  lemma CurrentDay(now: Date, custom: Option<CustomRange>, d: Date)
    requires KeyDate(now) && KeyDate(d) && ValidCustom(custom)
    ensures InCurrentPeriod(Dia, now, custom, Key(d)) <==> d == now
  {
    KeyOrder(d, now);
  }

  /** Week: every date from the start of the week on is kept, with no upper bound. */
  lemma CurrentWeek(now: Date, custom: Option<CustomRange>, d: Date)
    requires KeyDate(now) && now.year >= 1001 && KeyDate(d) && ValidCustom(custom)
    ensures InCurrentPeriod(Semana, now, custom, Key(d)) <==> DayNumber(StartOfWeek(now)) <= DayNumber(d)
  {
    var s := StartOfWeek(now);
    StartOfWeekIsSunday(now);
    StaysFourDigit(now, s);
    KeyOrder(d, s);
  }

  /** Month: every date from the 1st of the month on is kept, with no upper bound. */
  lemma CurrentMonth(now: Date, custom: Option<CustomRange>, d: Date)
    requires KeyDate(now) && KeyDate(d) && ValidCustom(custom)
    ensures InCurrentPeriod(Mes, now, custom, Key(d)) <==> DayNumber(Date(now.year, now.month, 1)) <= DayNumber(d)
  {
    KeyOrder(d, Date(now.year, now.month, 1));
  }

  /** Year: every date from January 1st on is kept, with no upper bound. */
  lemma CurrentYear(now: Date, custom: Option<CustomRange>, d: Date)
    requires KeyDate(now) && KeyDate(d) && ValidCustom(custom)
    ensures InCurrentPeriod(Ano, now, custom, Key(d)) <==> now.year <= d.year
  {
    var first := Date(now.year, 1, 1);
    KeyOrder(d, first);
    DayNumberOrder(d, first);
  }

  /** Custom: the closed range is kept, and without a range nothing is. */
  lemma CurrentCustom(now: Date, custom: Option<CustomRange>, d: Date)
    requires Valid(now) && KeyDate(d) && ValidCustom(custom)
    requires custom.Some? ==> KeyDate(custom.value.inicio) && KeyDate(custom.value.fim)
    ensures InCurrentPeriod(Personalizado, now, custom, Key(d)) <==>
              custom.Some? && DayNumber(custom.value.inicio) <= DayNumber(d) <= DayNumber(custom.value.fim)
  {
    if custom.Some? {
      KeyOrder(d, custom.value.inicio);
      KeyOrder(custom.value.fim, d);
    }
  }

  /** Any other selector value, including the accented Month tab, keeps every transaction. */
  lemma CurrentUnrecognised(now: Date, custom: Option<CustomRange>, tag: string, dt: string)
    requires Valid(now) && ValidCustom(custom)
    ensures InCurrentPeriod(ParsePeriod("mês"), now, custom, dt)
    ensures ParsePeriod(tag).Unrecognised? ==> InCurrentPeriod(ParsePeriod(tag), now, custom, dt)
  {
    MonthTabIsUnrecognised();
  }

  // ---------------------------------------------------------------------------
  // What the previous interval is
  // ---------------------------------------------------------------------------

  /** Keys inside a closed key interval are the dates between its ends. */
  lemma KeyIntervalMembers(a: Date, b: Date, d: Date)
    requires KeyDate(a) && KeyDate(b) && KeyDate(d)
    ensures InInterval(KeyInterval(a, b), Key(d)) <==> DayNumber(a) <= DayNumber(d) <= DayNumber(b)
  {
    KeyOrder(d, a);
    KeyOrder(b, d);
  }

  /** Day: the previous period is yesterday alone. */
  lemma PreviousDay(now: Date, custom: Option<CustomRange>, d: Date)
    requires KeyDate(now) && now.year >= 1001 && KeyDate(d) && ValidCustom(custom)
    ensures PreviousInterval(Dia, now, custom) == KeyInterval(AddDays(now, -1), AddDays(now, -1))
    ensures InInterval(PreviousInterval(Dia, now, custom), Key(d)) <==> DayNumber(d) == DayNumber(now) - 1
  {
    var y := AddDays(now, -1);
    StaysFourDigit(now, y);
    KeyIntervalMembers(y, y, d);
  }

  lemma WeekEarlier(n: int)
    requires (n + 1) % 7 == 0
    ensures (n - 7 + 1) % 7 == 0
  {
  }

  /** Week: the previous period is the seven days Sunday..Saturday ending the day before
      the current week's Sunday. */
  lemma PreviousWeek(now: Date, custom: Option<CustomRange>, d: Date)
    requires KeyDate(now) && now.year >= 1001 && KeyDate(d) && ValidCustom(custom)
    ensures var s := StartOfWeek(now);
      && PreviousInterval(Semana, now, custom) == KeyInterval(AddDays(s, -7), AddDays(s, -1))
      && Weekday(s) == 0 && DayNumber(now) - 6 <= DayNumber(s) <= DayNumber(now)
      && Weekday(AddDays(s, -7)) == 0
      && (InInterval(PreviousInterval(Semana, now, custom), Key(d)) <==>
            DayNumber(s) - 7 <= DayNumber(d) <= DayNumber(s) - 1)
  {
    var s := StartOfWeek(now);
    var a, b := AddDays(s, -7), AddDays(s, -1);
    WeekCase(now, custom);
    PreviousWeekDays(now);
    KeyIntervalMembers(a, b, d);
  }

  /** The previous week's ends are key dates, and it starts on a Sunday. */
  lemma PreviousWeekDays(now: Date)
    requires KeyDate(now) && now.year >= 1001
    ensures var s := StartOfWeek(now);
      && Weekday(s) == 0 && DayNumber(now) - 6 <= DayNumber(s) <= DayNumber(now)
      && KeyDate(AddDays(s, -7)) && KeyDate(AddDays(s, -1)) && Weekday(AddDays(s, -7)) == 0
  {
    StartOfWeekIsSunday(now);
    WeekBefore(now, StartOfWeek(now));
  }

  lemma WeekBefore(now: Date, s: Date)
    requires KeyDate(now) && now.year >= 1001 && Valid(s)
    requires Weekday(s) == 0 && DayNumber(now) - 6 <= DayNumber(s) <= DayNumber(now)
    ensures KeyDate(AddDays(s, -7)) && KeyDate(AddDays(s, -1)) && Weekday(AddDays(s, -7)) == 0
  {
    WeekEarlierDay(s);
    FourDigitWeek(now, s);
  }

  lemma WeekEarlierDay(s: Date)
    requires Valid(s) && Weekday(s) == 0
    ensures Weekday(AddDays(s, -7)) == 0
  {
    WeekEarlier(DayNumber(s));
  }

  lemma FourDigitWeek(now: Date, s: Date)
    requires KeyDate(now) && now.year >= 1001 && Valid(s)
    requires DayNumber(now) - 6 <= DayNumber(s) <= DayNumber(now)
    ensures KeyDate(AddDays(s, -7)) && KeyDate(AddDays(s, -1))
  {
    StaysFourDigit(now, AddDays(s, -7));
    StaysFourDigit(now, AddDays(s, -1));
  }

  /** Month: the previous period runs from the 1st to the last day of the preceding month
      (its length following the leap-year rule), which ends the day before this month's 1st. */
  lemma PreviousMonth(now: Date, custom: Option<CustomRange>)
    requires Valid(now) && ValidCustom(custom)
    ensures var (py, pm) := PrecedingMonth(now);
      && PreviousInterval(Mes, now, custom) == KeyInterval(Date(py, pm, 1), Date(py, pm, DaysInMonth(py, pm)))
      && DayNumber(Date(py, pm, DaysInMonth(py, pm))) + 1 == DayNumber(Date(now.year, now.month, 1))
  {
    var (py, pm) := PrecedingMonth(now);
    MonthCase(now, custom);
    JsDateFirstOfMonth(py, pm - 1);
    JsDateDayZero(py, pm);
    PrecedingMonthEnds(now);
  }

  lemma WeekCase(now: Date, custom: Option<CustomRange>)
    requires Valid(now) && ValidCustom(custom)
    ensures var s := StartOfWeek(now);
      PreviousInterval(Semana, now, custom) == KeyInterval(AddDays(s, -7), AddDays(s, -1))
  {
  }

  lemma MonthCase(now: Date, custom: Option<CustomRange>)
    requires Valid(now) && ValidCustom(custom)
    ensures var (py, pm) := PrecedingMonth(now);
      PreviousInterval(Mes, now, custom) == KeyInterval(JsDate(py, pm - 1, 1), JsDate(py, pm, 0))
  {
  }

  /** The last day of the preceding month is the day before this month's 1st. */
  lemma PrecedingMonthEnds(now: Date)
    requires Valid(now)
    ensures var (py, pm) := PrecedingMonth(now);
      DayNumber(Date(py, pm, DaysInMonth(py, pm))) + 1 == DayNumber(Date(now.year, now.month, 1))
  {
    var (py, pm) := PrecedingMonth(now);
    var last := Date(py, pm, DaysInMonth(py, pm));
    assert Succ(last) == Date(now.year, now.month, 1);
  }

  /** A key date lies in the previous-month interval exactly when it is in the preceding month. */
  lemma PreviousMonthMembers(now: Date, custom: Option<CustomRange>, d: Date)
    requires KeyDate(now) && now.year >= 1001 && KeyDate(d) && ValidCustom(custom)
    ensures var (py, pm) := PrecedingMonth(now);
      InInterval(PreviousInterval(Mes, now, custom), Key(d)) <==> d.year == py && d.month == pm
  {
    var (py, pm) := PrecedingMonth(now);
    PreviousMonth(now, custom);
    var first, last := Date(py, pm, 1), Date(py, pm, DaysInMonth(py, pm));
    KeyIntervalMembers(first, last, d);
    DayNumberOrder(d, first);
    DayNumberOrder(last, d);
  }

  /** The January example: on 2024-01-15 the previous month is December 2023. */
  lemma PreviousMonthJanuary()
    ensures PreviousInterval(Mes, Date(2024, 1, 15), None) == KeyInterval(Date(2023, 12, 1), Date(2023, 12, 31))
  {
    PreviousMonth(Date(2024, 1, 15), None);
  }

  /** The keys of that interval, as the filter compares them. */
  lemma DecemberKeys()
    ensures Key(Date(2023, 12, 1)) == "2023-12-01" && Key(Date(2023, 12, 31)) == "2023-12-31"
  {
    DecemberFirstKey(2023);
    LastOfYearKey(2023);
    YearChars(2023);
    assert YearText(2023) == "2023";
  }

  lemma DecemberFirstKey(y: int)
    ensures Key(Date(y, 12, 1)) == YearText(y) + "-12-01"
  {
    Pad2Chars(12);
    Pad2Chars(1);
    assert "-" + Pad2(12) + "-" + Pad2(1) == "-12-01";
    assert Key(Date(y, 12, 1)) == YearText(y) + ("-" + Pad2(12) + "-" + Pad2(1));
  }

  /** The leap-year rule decides how long the previous February is: in March the previous
      month interval is February, 29 days long in a leap year and 28 otherwise (see
      `Calendar.LeapYearExamples` for 2024, 2023 and 1900). */
  lemma PreviousMonthFebruary(y: int)
    ensures Valid(Date(y, 2, if IsLeapYear(y) then 29 else 28))
    ensures PreviousInterval(Mes, Date(y, 3, 10), None) == KeyInterval(Date(y, 2, 1), Date(y, 2, if IsLeapYear(y) then 29 else 28))
  {
    PreviousMonth(Date(y, 3, 10), None);
  }

  /** Year: the previous period is January 1st to December 31st of the previous year. */
  lemma PreviousYear(now: Date, custom: Option<CustomRange>)
    requires Valid(now) && ValidCustom(custom)
    ensures PreviousInterval(Ano, now, custom) == KeyInterval(Date(now.year - 1, 1, 1), Date(now.year - 1, 12, 31))
  {
    FirstOfYearKey(now.year - 1);
    LastOfYearKey(now.year - 1);
  }

  lemma FirstOfYearKey(y: int)
    ensures Key(Date(y, 1, 1)) == YearText(y) + "-01-01"
  {
    Pad2Chars(1);
    assert "-" + Pad2(1) + "-" + Pad2(1) == "-01-01";
    assert Key(Date(y, 1, 1)) == YearText(y) + ("-" + Pad2(1) + "-" + Pad2(1));
  }

  lemma LastOfYearKey(y: int)
    ensures Valid(Date(y, 12, 31)) && Key(Date(y, 12, 31)) == YearText(y) + "-12-31"
  {
    Pad2Chars(12);
    Pad2Chars(31);
    assert "-" + Pad2(12) + "-" + Pad2(31) == "-12-31";
    assert Key(Date(y, 12, 31)) == YearText(y) + ("-" + Pad2(12) + "-" + Pad2(31));
  }

  /** A key date lies in the previous-year interval exactly when it is in the previous year. */
  lemma PreviousYearMembers(now: Date, custom: Option<CustomRange>, d: Date)
    requires KeyDate(now) && now.year >= 1001 && KeyDate(d) && ValidCustom(custom)
    ensures InInterval(PreviousInterval(Ano, now, custom), Key(d)) <==> d.year == now.year - 1
  {
    PreviousYear(now, custom);
    var first, last := Date(now.year - 1, 1, 1), Date(now.year - 1, 12, 31);
    KeyIntervalMembers(first, last, d);
    DayNumberOrder(d, first);
    DayNumberOrder(last, d);
  }

  /** Custom: the previous period ends the day before the range starts and spans as many days. */
  lemma PreviousCustom(now: Date, c: CustomRange)
    requires Valid(now) && ValidCustom(Some(c))
    ensures exists a: Date, b: Date :: (Valid(a) && Valid(b)
      && PreviousInterval(Personalizado, now, Some(c)) == KeyInterval(a, b)
      && DayNumber(b) == DayNumber(c.inicio) - 1
      && DayNumber(b) - DayNumber(a) == DayNumber(c.fim) - DayNumber(c.inicio))
  {
    var e := CustomPreviousEnds(c);
    CustomCase(now, c);
    assert PreviousInterval(Personalizado, now, Some(c)) == KeyInterval(e.0, e.1);
  }

  lemma CustomCase(now: Date, c: CustomRange)
    requires Valid(now) && ValidCustom(Some(c))
    ensures var e := CustomPreviousEnds(c);
      PreviousInterval(Personalizado, now, Some(c)) == KeyInterval(e.0, e.1)
  {
  }

  /** Without a custom range, and for any unrecognised selector, the previous interval is
      `("", "")`, which only an empty date part falls into. */
  lemma PreviousFallback(now: Date, tag: string, dt: string)
    requires Valid(now)
    ensures PreviousInterval(Personalizado, now, None) == Interval("", "")
    ensures ParsePeriod(tag).Unrecognised? ==> PreviousInterval(ParsePeriod(tag), now, None) == Interval("", "")
    ensures InInterval(Interval("", ""), dt) <==> dt == ""
  {
  }
}
