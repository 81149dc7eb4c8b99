/** The `YYYY-MM-DD` strings the dashboard uses as date keys, JavaScript's string
    comparison (code point by code point), `split`, and the display form `DD/MM/YYYY`. */
module DateKeys {
  import opened Calendar

  // ---------------------------------------------------------------------------
  // Decimal text, `String(n)` and `String(n).padStart(2, "0")`
  // ---------------------------------------------------------------------------

  function DigitChar(n: int): (c: char)
    requires 0 <= n <= 9
    ensures '0' <= c <= '9'
  {
    ('0' as int + n) as char
  }

  /** `String(n)` for a natural number. */
  function Decimal(n: nat): (s: string)
    ensures |s| >= 1
    ensures forall i :: 0 <= i < |s| ==> '0' <= s[i] <= '9'
  {
    if n < 10 then [DigitChar(n)] else Decimal(n / 10) + [DigitChar(n % 10)]
  }

  /** `String(y)` for any year; JavaScript does not pad years. */
  function YearText(y: int): string {
    if y < 0 then "-" + Decimal(-y) else Decimal(y)
  }

  /** `String(n).padStart(2, "0")`. */
  function Pad2(n: nat): string {
    if n < 10 then "0" + Decimal(n) else Decimal(n)
  }

  /** The key `${year}-${pad(month)}-${pad(day)}` the dashboard builds from a date. */
  function Key(d: Date): string
    requires Valid(d)
  {
    YearText(d.year) + "-" + Pad2(d.month) + "-" + Pad2(d.day)
  }

  /** Dates whose keys have the fixed ten-character shape (four-digit years). */
  predicate KeyDate(d: Date) {
    Valid(d) && 1000 <= d.year <= 9999
  }

  // ---------------------------------------------------------------------------
  // Fixed-width digit strings
  // ---------------------------------------------------------------------------

  function Pow10(w: nat): (p: nat)
    ensures p >= 1
  {
    if w == 0 then 1 else 10 * Pow10(w - 1)
  }

  /** The last `w` decimal digits of `n`, most significant first. */
  function Digits(n: nat, w: nat): (s: string)
    ensures |s| == w
  {
    if w == 0 then [] else Digits(n / 10, w - 1) + [DigitChar(n % 10)]
  }

  /** `String(n)` of a `w`-digit number is its `w` fixed-width digits. */
  lemma {:induction false} DecimalDigits(n: nat, w: nat)
    requires 1 <= w && Pow10(w - 1) <= n < Pow10(w)
    ensures Decimal(n) == Digits(n, w)
  {
    if w == 1 {
      assert Digits(n, 1) == Digits(n / 10, 0) + [DigitChar(n % 10)];
    } else {
      assert Pow10(w - 2) <= n / 10 < Pow10(w - 1);
      DecimalDigits(n / 10, w - 1);
    }
  }

  lemma FourDigitYear(y: int)
    requires 1000 <= y <= 9999
    ensures YearText(y) == Digits(y, 4)
  {
    assert Pow10(3) == 1000 && Pow10(4) == 10000;
    DecimalDigits(y, 4);
  }

  lemma TwoDigits(n: nat)
    requires n < 100
    ensures Pad2(n) == Digits(n, 2)
  {
    if n < 10 {
      assert Digits(n, 2) == Digits(0, 1) + [DigitChar(n)];
    } else {
      assert Pow10(1) == 10 && Pow10(2) == 100;
      DecimalDigits(n, 2);
    }
  }

  /** A four-digit key is the year's four digits, a dash, two month digits, a dash, two day digits. */
  lemma KeyShape(d: Date)
    requires KeyDate(d)
    ensures Key(d) == Digits(d.year, 4) + "-" + Digits(d.month, 2) + "-" + Digits(d.day, 2)
    ensures |Key(d)| == 10
  {
    FourDigitYear(d.year);
    TwoDigits(d.month);
    TwoDigits(d.day);
  }

  /** The four characters of a four-digit year. */
  lemma YearChars(y: int)
    requires 1000 <= y <= 9999
    ensures YearText(y) == [DigitChar(y / 1000), DigitChar(y / 100 % 10), DigitChar(y / 10 % 10), DigitChar(y % 10)]
  {
    var a, b, c := y / 10, y / 100, y / 1000;
    assert a / 10 == b && b / 10 == c && c < 10;
    assert Decimal(c) == [DigitChar(c)];
    assert Decimal(b) == [DigitChar(c), DigitChar(b % 10)];
    assert Decimal(a) == [DigitChar(c), DigitChar(b % 10), DigitChar(a % 10)];
  }

  /** The two characters of a padded month or day. */
  lemma Pad2Chars(n: nat)
    requires n < 100
    ensures Pad2(n) == [DigitChar(n / 10), DigitChar(n % 10)]
  {
    if n >= 10 {
      assert Decimal(n / 10) == [DigitChar(n / 10)];
    }
  }

  // ---------------------------------------------------------------------------
  // JavaScript string comparison
  // ---------------------------------------------------------------------------

  /** `a < b` on strings, taken character by character: the first differing code point decides, and a proper
      prefix is smaller. (`a >= b` is `!StrLess(a, b)`, `a <= b` is `!StrLess(b, a)`.) */
  predicate StrLess(a: string, b: string) {
    if |a| == 0 then |b| > 0
    else if |b| == 0 then false
    else if a[0] != b[0] then a[0] < b[0]
    else StrLess(a[1..], b[1..])
  }

  lemma {:induction false} StrLessIrreflexive(a: string)
    ensures !StrLess(a, a)
  {
    if |a| > 0 {
      StrLessIrreflexive(a[1..]);
    }
  }

  /** String order is total: of two different strings one is smaller. */
  lemma {:induction false} StrLessTotal(a: string, b: string)
    ensures a == b || StrLess(a, b) || StrLess(b, a)
    ensures !(StrLess(a, b) && StrLess(b, a))
  {
    if |a| > 0 && |b| > 0 && a[0] == b[0] {
      StrLessTotal(a[1..], b[1..]);
      if a[1..] == b[1..] {
        assert a == [a[0]] + a[1..] && b == [b[0]] + b[1..];
      }
    }
  }

  lemma {:induction false} StrLessTransitive(a: string, b: string, c: string)
    requires StrLess(a, b) && StrLess(b, c)
    ensures StrLess(a, c)
  {
    if |a| > 0 && a[0] == b[0] && b[0] == c[0] {
      StrLessTransitive(a[1..], b[1..], c[1..]);
    }
  }

  /** Comparing two concatenations whose first parts have equal length: the first parts
      decide unless they are equal. */
  lemma {:induction false} StrLessConcat(p: string, s: string, q: string, t: string)
    requires |p| == |q|
    ensures StrLess(p + s, q + t) <==> StrLess(p, q) || (p == q && StrLess(s, t))
  {
    if |p| > 0 {
      assert (p + s)[1..] == p[1..] + s;
      assert (q + t)[1..] == q[1..] + t;
      StrLessConcat(p[1..], s, q[1..], t);
      if p[0] == q[0] && p[1..] == q[1..] {
        assert p == [p[0]] + p[1..] && q == [q[0]] + q[1..];
      }
    } else {
      assert p + s == s && q + t == t;
    }
  }

  lemma ConcatEqual(p: string, s: string, q: string, t: string)
    requires |p| == |q|
    ensures p + s == q + t <==> p == q && s == t
  {
    if p + s == q + t {
      assert p == (p + s)[..|p|] && q == (q + t)[..|q|];
      assert s == (p + s)[|p|..] && t == (q + t)[|q|..];
    }
  }

  /** Fixed-width digit strings compare like the numbers they spell. */
  lemma {:induction false} DigitsOrder(m: nat, n: nat, w: nat)
    requires m < Pow10(w) && n < Pow10(w)
    ensures StrLess(Digits(m, w), Digits(n, w)) <==> m < n
    ensures Digits(m, w) == Digits(n, w) <==> m == n
  {
    if w > 0 {
      DigitsOrder(m / 10, n / 10, w - 1);
      StrLessConcat(Digits(m / 10, w - 1), [DigitChar(m % 10)], Digits(n / 10, w - 1), [DigitChar(n % 10)]);
      ConcatEqual(Digits(m / 10, w - 1), [DigitChar(m % 10)], Digits(n / 10, w - 1), [DigitChar(n % 10)]);
      assert m == 10 * (m / 10) + m % 10;
      assert n == 10 * (n / 10) + n % 10;
    }
  }

  /** The key property the dashboard's filters rely on: for four-digit years, comparing
      keys as strings is comparing the dates in calendar order. */
  lemma KeyOrder(a: Date, b: Date)
    requires KeyDate(a) && KeyDate(b)
    ensures StrLess(Key(a), Key(b)) <==> DayNumber(a) < DayNumber(b)
    ensures Key(a) == Key(b) <==> a == b
  {
    KeyShape(a);
    KeyShape(b);
    assert Pow10(2) == 100 && Pow10(4) == 10000;
    DigitsOrder(a.year, b.year, 4);
    DigitsOrder(a.month, b.month, 2);
    DigitsOrder(a.day, b.day, 2);
    KeyFieldsOrder(Digits(a.year, 4), Digits(a.month, 2), Digits(a.day, 2), Digits(b.year, 4), Digits(b.month, 2), Digits(b.day, 2));
    DayNumberOrder(a, b);
  }

  /** Keys of the same shape compare field by field: year, then month, then day. */
  lemma KeyFieldsOrder(ya: string, ma: string, da: string, yb: string, mb: string, db: string)
    requires |ya| == |yb| && |ma| == |mb|
    ensures StrLess(ya + "-" + ma + "-" + da, yb + "-" + mb + "-" + db) <==>
      StrLess(ya, yb) || (ya == yb && (StrLess(ma, mb) || (ma == mb && StrLess(da, db))))
    ensures ya + "-" + ma + "-" + da == yb + "-" + mb + "-" + db <==> ya == yb && ma == mb && da == db
  {
    assert ya + "-" + ma + "-" + da == ya + ("-" + ma + "-" + da);
    assert yb + "-" + mb + "-" + db == yb + ("-" + mb + "-" + db);
    StrLessConcat(ya, "-" + ma + "-" + da, yb, "-" + mb + "-" + db);
    ConcatEqual(ya, "-" + ma + "-" + da, yb, "-" + mb + "-" + db);
    assert "-" + ma + "-" + da == ("-" + ma) + ("-" + da);
    assert "-" + mb + "-" + db == ("-" + mb) + ("-" + db);
    StrLessConcat("-" + ma, "-" + da, "-" + mb, "-" + db);
    ConcatEqual("-" + ma, "-" + da, "-" + mb, "-" + db);
    StrLessConcat("-", ma, "-", mb);
    ConcatEqual("-", ma, "-", mb);
    StrLessConcat("-", da, "-", db);
    ConcatEqual("-", da, "-", db);
    StrLessIrreflexive("-");
  }

  // ---------------------------------------------------------------------------
  // `split` and the date part of a stored timestamp
  // ---------------------------------------------------------------------------

  /** `s.split(sep)` for a one-character separator; `"".split(sep)` is `[""]`. */
  function Split(s: string, sep: char): (parts: seq<string>)
    ensures |parts| >= 1
  {
    if |s| == 0 then [""]
    else
      var rest := Split(s[1..], sep);
      if s[0] == sep then [""] + rest
      else [[s[0]] + rest[0]] + rest[1..]
  }

  /** Splitting `p + [sep] + s` where `p` has no separator gives `p` and then the parts of `s`. */
  lemma {:induction false} SplitAtSeparator(p: string, sep: char, s: string)
    requires sep !in p
    ensures Split(p + [sep] + s, sep) == [p] + Split(s, sep)
  {
    if |p| == 0 {
      assert (p + [sep] + s)[1..] == s;
    } else {
      assert (p + [sep] + s)[1..] == p[1..] + [sep] + s;
      SplitAtSeparator(p[1..], sep, s);
      assert [p[0]] + p[1..] == p;
    }
  }

  lemma {:induction false} SplitNoSeparator(p: string, sep: char)
    requires sep !in p
    ensures Split(p, sep) == [p]
  {
    if |p| > 0 {
      SplitNoSeparator(p[1..], sep);
      assert [p[0]] + p[1..] == p;
    }
  }

  /** `s.split("T")[0]`: the text before the first `T`. */
  function DatePart(s: string): string {
    Split(s, 'T')[0]
  }

  /** A key followed by nothing or by a `T...` time suffix has the key as its date part. */
  lemma DatePartOfKey(d: Date, suffix: string)
    requires Valid(d)
    requires suffix == [] || suffix[0] == 'T'
    ensures DatePart(Key(d) + suffix) == Key(d)
  {
    var k := Key(d);
    assert 'T' !in k by {
      assert k == YearText(d.year) + "-" + Pad2(d.month) + "-" + Pad2(d.day);
    }
    if suffix == [] {
      SplitNoSeparator(k, 'T');
      assert k + suffix == k;
    } else {
      assert k + suffix == k + ['T'] + suffix[1..];
      SplitAtSeparator(k, 'T', suffix[1..]);
    }
  }

  // ---------------------------------------------------------------------------
  // `formatarData`
  // ---------------------------------------------------------------------------

  /** Destructuring `const [a, b, c] = parts` and interpolating a missing element yields "undefined". */
  function PartOr(parts: seq<string>, i: nat): string {
    if i < |parts| then parts[i] else "undefined"
  }

  /** `formatarData`: an empty string stays empty; otherwise the date part is split on `-`
      and rearranged as day/month/year. */
  function FormatDate(s: string): string {
    if s == "" then ""
    else
      var parts := Split(DatePart(s), '-');
      PartOr(parts, 2) + "/" + PartOr(parts, 1) + "/" + PartOr(parts, 0)
  }

  /** A stored date `YYYY-MM-DD`, with or without a time suffix, displays as `DD/MM/YYYY`. */
  lemma FormatDateOfKey(d: Date, suffix: string)
    requires Valid(d) && d.year >= 0
    requires suffix == [] || suffix[0] == 'T'
    ensures FormatDate(Key(d) + suffix) == Pad2(d.day) + "/" + Pad2(d.month) + "/" + YearText(d.year)
  {
    DatePartOfKey(d, suffix);
    SplitKey(d);
    assert Key(d) + suffix != "";
  }

  /** A key splits at its two dashes into year, month and day. */
  lemma SplitKey(d: Date)
    requires Valid(d) && d.year >= 0
    ensures Split(Key(d), '-') == [YearText(d.year), Pad2(d.month), Pad2(d.day)]
  {
    var y, m, dd := YearText(d.year), Pad2(d.month), Pad2(d.day);
    assert '-' !in y && '-' !in m && '-' !in dd;
    assert Key(d) == y + ['-'] + (m + ['-'] + dd);
    SplitAtSeparator(y, '-', m + ['-'] + dd);
    SplitAtSeparator(m, '-', dd);
    SplitNoSeparator(dd, '-');
  }

  lemma FormatDateEmpty()
    ensures FormatDate("") == ""
  {
  }
}
