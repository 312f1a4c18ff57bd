/** Calendar dates in the ISO 8601 extended format YYYY-MM-DD (ISO 8601:2004
    section 4.1.2.2), which is how reminder dates are stored and how "today"
    is produced from `toISOString().split('T')[0]`. The code compares such
    strings with `<=`; the lemma IsoOrder shows that this is calendar order. */
module Calendar {
  import opened Text

  datatype Date = Date(year: int, month: int, day: int)

  /** A date whose fields fit the four- and two-digit fields of the format. */
  predicate Valid(d: Date)
  {
    0 <= d.year <= 9999 && 1 <= d.month <= 12 && 1 <= d.day <= 31
  }

  /** Calendar order: year first, then month, then day. */
  predicate OnOrBefore(a: Date, b: Date)
  {
    a.year < b.year ||
    (a.year == b.year && (a.month < b.month || (a.month == b.month && a.day <= b.day)))
  }

  function Digit(n: int): char
    requires 0 <= n <= 9
  {
    ('0' as int + n) as char
  }

  /** A number below 100 written with two digits and a leading zero. */
  function Pad2(n: int): (r: string)
    requires 0 <= n <= 99
    ensures |r| == 2
  {
    [Digit(n / 10), Digit(n % 10)]
  }

  /** The YYYY-MM-DD text of a date. */
  function Iso(d: Date): (r: string)
    requires Valid(d)
    ensures |r| == 10 && r[4] == '-' && r[7] == '-'
    ensures forall i :: 0 <= i < 10 && i != 4 && i != 7 ==> '0' <= r[i] <= '9'
  {
    Pad2(d.year / 100) + (Pad2(d.year % 100) + ("-" + (Pad2(d.month) + ("-" + Pad2(d.day)))))
  }

  /** Two-digit fields compare as text exactly as they compare as numbers. */
  lemma Pad2Order(x: int, y: int)
    requires 0 <= x <= 99 && 0 <= y <= 99
    ensures Pad2(x) == Pad2(y) <==> x == y
    ensures LexLe(Pad2(x), Pad2(y)) <==> x <= y
  {
    if Pad2(x) == Pad2(y) {
      assert Pad2(x)[0] == Pad2(y)[0] && Pad2(x)[1] == Pad2(y)[1];
      assert x == 10 * (x / 10) + x % 10 && y == 10 * (y / 10) + y % 10;
    }
    LexLeConcat([Pad2(x)[0]], [Pad2(x)[1]], [Pad2(y)[0]], [Pad2(y)[1]]);
    assert Pad2(x) == [Pad2(x)[0]] + [Pad2(x)[1]];
    assert Pad2(y) == [Pad2(y)[0]] + [Pad2(y)[1]];
  }

  /** A common first character does not change the comparison. */
  lemma LexLeCons(c: char, a: string, b: string)
    ensures LexLe([c] + a, [c] + b) == LexLe(a, b)
  {
    assert ([c] + a)[1..] == a && ([c] + b)[1..] == b;
  }

  /** Comparing two ISO dates as strings is comparing them on the calendar. */
  lemma IsoOrder(a: Date, b: Date)
    requires Valid(a) && Valid(b)
    ensures LexLe(Iso(a), Iso(b)) <==> OnOrBefore(a, b)
  {
    var ad := Pad2(a.day);
    var bd := Pad2(b.day);
    var am := Pad2(a.month) + ("-" + ad);
    var bm := Pad2(b.month) + ("-" + bd);
    var ya := Pad2(a.year % 100) + ("-" + am);
    var yb := Pad2(b.year % 100) + ("-" + bm);
    Pad2Order(a.year / 100, b.year / 100);
    Pad2Order(a.year % 100, b.year % 100);
    Pad2Order(a.month, b.month);
    Pad2Order(a.day, b.day);
    LexLeConcat(Pad2(a.year / 100), ya, Pad2(b.year / 100), yb);
    LexLeConcat(Pad2(a.year % 100), "-" + am, Pad2(b.year % 100), "-" + bm);
    LexLeCons('-', am, bm);
    LexLeConcat(Pad2(a.month), "-" + ad, Pad2(b.month), "-" + bd);
    LexLeCons('-', ad, bd);
    assert a.year == 100 * (a.year / 100) + a.year % 100;
    assert b.year == 100 * (b.year / 100) + b.year % 100;
  }
}
